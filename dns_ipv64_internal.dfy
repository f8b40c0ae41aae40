/**
 * The IPv64 client of certbot_dns_ipv64/_internal/dns_ipv64.py. It derives the zone
 * as the root dns_ipv64.py does, but takes the record prefix by position: it drops
 * as many trailing characters as the zone and its dot are long. Create and delete
 * both hand the reply to the same `_check_errors`, so a failed delete raises too.
 */
module DnsIpv64Internal {
  import opened PyStr
  import opened Ipv64Api
  import DnsIpv64

  /** `_get_dns_zone`: the same last-two-labels zone as the root client. */
  function GetDnsZone(domain: string): (zone: string)
    ensures zone == DnsIpv64.GetDnsZone(domain)
  {
    Join(SliceFrom(Split(domain, '.'), -2), '.')
  }

  /**
   * `_get_domain_prefix`, i.e. `domain[:-len(dns_zone) - 1]`: the name without its
   * last `len(dns_zone) + 1` characters, whatever they are, and "" when the name is
   * not longer than that.
   */
  function GetDomainPrefix(domain: string, dnsZone: string): (prefix: string)
    ensures |prefix| == if |domain| <= |dnsZone| + 1 then 0 else |domain| - |dnsZone| - 1
    ensures prefix == domain[..|prefix|]
    ensures prefix == "" <==> |domain| <= |dnsZone| + 1
  {
    SliceTo(domain, -|dnsZone| - 1)
  }

  /**
   * The positional prefix and the root client's suffix-stripping prefix agree,
   * for any zone, exactly when the name ends with ".<zone>" or is empty.
   */
  lemma PrefixVariantsAgreeIff(domain: string, zone: string)
    ensures (GetDomainPrefix(domain, zone) == DnsIpv64.GetDomainPraefix(domain, zone))
        <==> (EndsWith(domain, "." + zone) || domain == "")
  {
    var positional := GetDomainPrefix(domain, zone);
    var stripped := DnsIpv64.GetDomainPraefix(domain, zone);
    if EndsWith(domain, "." + zone) {
      assert |stripped| == |domain| - |zone| - 1;
      assert stripped == domain[..|stripped|];
    } else if domain != "" {
      assert stripped == domain;
      assert |positional| < |domain|;
    }
  }

  /**
   * For the zone the clients derive, the two prefixes agree exactly on names with at
   * least three labels and on the empty name: every other name with one or two
   * labels gets "" here and the whole name in the root client.
   */
  lemma DerivedPrefixesAgreeIff(domain: string)
    ensures var zone := GetDnsZone(domain);
      (GetDomainPrefix(domain, zone) == DnsIpv64.GetDomainPraefix(domain, zone))
      <==> (|Split(domain, '.')| >= 3 || domain == "")
  {
    DnsIpv64.ZoneAnchored(domain);
    PrefixVariantsAgreeIff(domain, GetDnsZone(domain));
  }

  /**
   * Round trip: for a name with at least three labels the prefix, a dot and the
   * zone give the name back, and the prefix is the root client's.
   */
  lemma PrefixRoundTrip(domain: string)
    requires |Split(domain, '.')| >= 3
    ensures var zone := GetDnsZone(domain); var prefix := GetDomainPrefix(domain, zone);
      && prefix + "." + zone == domain
      && prefix == DnsIpv64.GetDomainPraefix(domain, zone)
  {
    DerivedPrefixesAgreeIff(domain);
    DnsIpv64.PraefixRoundTrip(domain);
  }

  /**
   * The divergence: a two-label name such as "example.com" is its own zone, so the
   * positional prefix is "" while the root client keeps the whole name.
   */
  lemma TwoLabelPrefixDiverges(domain: string)
    requires |Split(domain, '.')| == 2
    ensures GetDnsZone(domain) == domain
    ensures GetDomainPrefix(domain, GetDnsZone(domain)) == ""
    ensures DnsIpv64.GetDomainPraefix(domain, GetDnsZone(domain)) == domain != ""
  {
    DnsIpv64.ZoneSplit(domain);
    DnsIpv64.ShortNamePraefix(domain);
    assert Count(domain, '.') == 1;
  }

  /** Text in front of the provider's detail in every error of this client. */
  const ErrorText: string := "The following error occured: "

  /**
   * `_check_errors` as written: its first test reads `response`, a name that is
   * not defined in the method, so every call raises before the reply is looked at,
   * and no reply gets the classification `CheckErrors` gives it.
   */
  function CheckErrorsAsWritten(reply: Reply): (o: Outcome)
    ensures o.NameError? && o.name == "response"
    ensures o != CheckErrors(reply)
  {
    NameError("response")
  }

  /** Even a "success" reply makes the written `_check_errors` raise. */
  lemma CheckErrorsAsWrittenAlwaysRaises(reply: Reply)
    ensures CheckErrorsAsWritten(reply) == NameError("response")
    ensures reply.info == Some("success") ==> CheckErrorsAsWritten(reply) != CheckErrors(reply)
  {
  }

  /**
   * `_check_errors` as intended, on the reply it is passed: it returns normally
   * exactly when `info` is "success"; "Unauthorized" is tested first and raises
   * with the `info` text; any other value raises with the `add_record` text, or
   * with a KeyError when that key is missing.
   */
  function CheckErrors(reply: Reply): (o: Outcome)
    ensures o == Ok <==> reply.info == Some("success")
    ensures !o.NameError?
    ensures reply.info == Some("Unauthorized") ==> o == PluginError(ErrorText + "Unauthorized")
    ensures reply.info == None ==> o == KeyError("info")
    ensures reply.info.Some? && reply.info.value != "Unauthorized" && reply.info.value != "success" ==>
      o == if reply.addRecord.Some? then PluginError(ErrorText + reply.addRecord.value)
           else KeyError("add_record")
  {
    match reply.info
    case None => KeyError("info")
    case Some(info) =>
      if info == "Unauthorized" then PluginError(ErrorText + info)
      else if info != "success" then
        match reply.addRecord
        case None => KeyError("add_record")
        case Some(detail) => PluginError(ErrorText + detail)
      else Ok
  }

  /**
   * This client classifies a reply as the root client's create does: the same
   * replies succeed, the same missing key is reported, and a PluginError carries
   * the same provider text after each client's own preamble.
   */
  lemma CheckErrorsMatchesRootAdd(domain: string, zone: string, reply: Reply)
    ensures var mine := CheckErrors(reply); var root := DnsIpv64.AddOutcome(domain, zone, reply);
      && (mine == Ok <==> root == Ok)
      && (mine.KeyError? <==> root.KeyError?)
      && (mine.KeyError? ==> mine == root)
      && (mine.PluginError? <==> root.PluginError?)
      && (mine.PluginError? ==>
            |ErrorText| <= |mine.message|
            && |DnsIpv64.AddErrorText(domain, zone)| <= |root.message|
            && mine.message[|ErrorText|..] == root.message[|DnsIpv64.AddErrorText(domain, zone)|..])
  {
    var mine := CheckErrors(reply);
    var root := DnsIpv64.AddOutcome(domain, zone, reply);
    if mine.PluginError? {
      var detail := if reply.info == Some("Unauthorized") then "Unauthorized" else reply.addRecord.value;
      var t := DnsIpv64.AddErrorText(domain, zone);
      assert mine.message == ErrorText + detail;
      assert root.message == t + detail;
      assert (ErrorText + detail)[|ErrorText|..] == detail;
      assert (t + detail)[|t|..] == detail;
    }
  }

  /**
   * The delete policy against the root client's: a reply that rejects the delete
   * and carries its detail makes this client raise, where the root client only
   * logs and returns normally.
   */
  lemma DeleteFailurePropagates(domain: string, zone: string, reply: Reply)
    requires reply.info.Some? && reply.info.value != "success" && reply.addRecord.Some?
    ensures CheckErrors(reply).PluginError?
    ensures DnsIpv64.DelOutcome(domain, zone, reply).outcome == Ok
  {
  }

  /** `IPv64Client`: the endpoint and the authorization header, fixed at construction. */
  class IPv64Client {
    const apiUrl: string
    const authHeader: map<string, string>

    constructor (bearerToken: string)
      ensures apiUrl == ApiUrl
      ensures authHeader == AuthHeader(bearerToken)
    {
      apiUrl := ApiUrl;
      authHeader := AuthHeader(bearerToken);
    }

    /**
     * `add_txt_record`: posts the create body with the positional prefix, and
     * raises unless the provider answers "success".
     */
    method AddTxtRecord(domain: string, content: string, provider: Request -> Reply)
      returns (request: Request, outcome: Outcome)
      ensures var zone := GetDnsZone(domain);
        request == Request(Post, apiUrl, authHeader,
                           RecordBody(AddRecord, zone, GetDomainPrefix(domain, zone), content))
      ensures outcome == CheckErrors(provider(request))
      ensures outcome == Ok <==> provider(request).info == Some("success")
    {
      var dnsZone := GetDnsZone(domain);
      var prefix := GetDomainPrefix(domain, dnsZone);
      request := Request(Post, apiUrl, authHeader, RecordBody(AddRecord, dnsZone, prefix, content));
      var response := provider(request);
      outcome := CheckErrors(response);
    }

    /**
     * `del_txt_record`: sends the delete body with the positional prefix and, unlike
     * the root client, raises unless the provider answers "success".
     */
    method DelTxtRecord(domain: string, content: string, provider: Request -> Reply)
      returns (request: Request, outcome: Outcome)
      ensures var zone := GetDnsZone(domain);
        request == Request(Delete, apiUrl, authHeader,
                           RecordBody(DelRecord, zone, GetDomainPrefix(domain, zone), content))
      ensures outcome == CheckErrors(provider(request))
      ensures outcome == Ok <==> provider(request).info == Some("success")
    {
      var dnsZone := GetDnsZone(domain);
      var prefix := GetDomainPrefix(domain, dnsZone);
      request := Request(Delete, apiUrl, authHeader, RecordBody(DelRecord, dnsZone, prefix, content));
      var response := provider(request);
      outcome := CheckErrors(response);
    }
  }

  /** The part of the certbot authenticator that checks the token and makes the client. */
  class Authenticator {
    var ipv64: IPv64Client?

    constructor ()
      ensures ipv64 == null
    {
      ipv64 := null;
    }

    /**
     * `_validate_credentials`: a token whose length is not 32 raises and leaves the
     * client as it was; a 32-character token installs a new client that sends
     * "Bearer <token>" to the fixed endpoint.
     */
    method ValidateCredentials(bearerToken: string) returns (error: Option<string>)
      modifies this
      ensures error.Some? <==> |bearerToken| != TokenLength
      ensures error.Some? ==> error.value == TokenLengthError && ipv64 == old(ipv64)
      ensures error.None? ==> ipv64 != null && fresh(ipv64)
                              && ipv64.apiUrl == ApiUrl && ipv64.authHeader == AuthHeader(bearerToken)
    {
      if |bearerToken| != TokenLength {
        error := Some(TokenLengthError);
        return;
      }
      ipv64 := new IPv64Client(bearerToken);
      error := None;
    }
  }
}
