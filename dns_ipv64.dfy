/**
 * The IPv64 client of dns_ipv64.py: the zone is the last two labels of the
 * validation name, the record prefix is what is left once ".<zone>" is stripped
 * from its end, create and delete send the same form body under different action
 * keys, a failed create raises a PluginError and a failed delete only logs warnings.
 */
module DnsIpv64 {
  import opened PyStr
  import opened Ipv64Api

  /**
   * `'.'.join(domain.split('.')[-2:])`: a name with at most two labels is its own
   * zone (the lemmas below say what it is for longer names).
   */
  function GetDnsZone(domain: string): (zone: string)
    ensures |Split(domain, '.')| <= 2 ==> zone == domain
  {
    var labels := Split(domain, '.');
    assert |labels| <= 2 ==> SliceFrom(labels, -2) == labels;
    Join(SliceFrom(labels, -2), '.')
  }

  /**
   * `domain.removesuffix('.' + dns_zone)`: when the name ends with ".<zone>" the
   * prefix followed by ".<zone>" is the name again; otherwise the name is kept whole.
   */
  function GetDomainPraefix(domain: string, dnsZone: string): (praefix: string)
    ensures EndsWith(domain, "." + dnsZone) ==> praefix + "." + dnsZone == domain
    ensures !EndsWith(domain, "." + dnsZone) ==> praefix == domain
  {
    RemoveSuffix(domain, "." + dnsZone)
  }

  /**
   * The zone is the join of the last two labels (the whole name for fewer than
   * three labels); with three or more labels the labels before them, joined, and
   * a dot come first.
   */
  lemma ZoneSplit(domain: string)
    ensures var labels := Split(domain, '.'); var n := |labels|;
      && (n >= 3 ==> n >= 2 && GetDnsZone(domain) == Join(labels[n - 2..], '.')
                     && domain == Join(labels[..n - 2], '.') + "." + GetDnsZone(domain))
      && (n <= 2 ==> GetDnsZone(domain) == domain)
  {
    var labels := Split(domain, '.');
    var n := |labels|;
    if n >= 3 {
      assert labels == labels[..n - 2] + labels[n - 2..];
      JoinConcat(labels[..n - 2], labels[n - 2..], '.');
    } else {
      assert SliceFrom(labels, -2) == labels;
    }
  }

  /**
   * A name with two or more labels has as zone its last two labels with one dot
   * between them, and splitting the zone gives exactly those two labels; a name
   * with a single label is its own zone.
   */
  lemma ZoneIsLastTwoLabels(domain: string)
    ensures var labels := Split(domain, '.'); var n := |labels|;
      && (n >= 2 ==> GetDnsZone(domain) == labels[n - 2] + "." + labels[n - 1]
                     && Split(GetDnsZone(domain), '.') == [labels[n - 2], labels[n - 1]])
      && (n == 1 ==> GetDnsZone(domain) == domain)
  {
    var labels := Split(domain, '.');
    var n := |labels|;
    if n >= 2 {
      var last := labels[n - 2..];
      assert SliceFrom(labels, -2) == last == [labels[n - 2], labels[n - 1]];
      JoinTwo(labels[n - 2], labels[n - 1], '.');
      NoSepTail(labels, n - 2, '.');
      SplitJoin(last, '.');
    } else {
      ZoneSplit(domain);
    }
  }

  /** The zone is a suffix of the name and holds at most one dot. */
  lemma ZoneIsSuffix(domain: string)
    ensures EndsWith(domain, GetDnsZone(domain))
    ensures Count(GetDnsZone(domain), '.') <= 1
  {
    var zone := GetDnsZone(domain);
    var n := |Split(domain, '.')|;
    ZoneSplit(domain);
    if n >= 3 {
      var p := Join(Split(domain, '.')[..n - 2], '.') + ".";
      EndsWithConcat(p, zone);
    } else {
      assert domain[|domain| - |zone|..] == domain;
    }
    ZoneIsLastTwoLabels(domain);
    if n >= 2 {
      assert |Split(zone, '.')| == 2;
    } else {
      assert Count(domain, '.') == 0;
    }
  }

  /** Taking the zone of a zone changes nothing. */
  lemma ZoneIdempotent(domain: string)
    ensures GetDnsZone(GetDnsZone(domain)) == GetDnsZone(domain)
  {
    var labels := Split(domain, '.');
    var n := |labels|;
    var zone := GetDnsZone(domain);
    ZoneIsLastTwoLabels(domain);
    if n >= 2 {
      var parts := Split(zone, '.');
      assert parts == [labels[n - 2], labels[n - 1]];
      assert SliceFrom(parts, -2) == parts;
      assert Join(parts, '.') == zone;
    }
  }

  /** A name ends with ".<zone>" exactly when it has at least three labels. */
  lemma ZoneAnchored(domain: string)
    ensures EndsWith(domain, "." + GetDnsZone(domain)) <==> |Split(domain, '.')| >= 3
  {
    var labels := Split(domain, '.');
    var n := |labels|;
    ZoneSplit(domain);
    if n >= 3 {
      DotSuffix(Join(labels[..n - 2], '.'), GetDnsZone(domain));
    } else {
      NoDotSelfSuffix(domain);
    }
  }

  /** "<p>.<zone>" ends with ".<zone>". */
  lemma DotSuffix(p: string, zone: string)
    ensures EndsWith(p + "." + zone, "." + zone)
  {
    assert p + "." + zone == p + ("." + zone);
    EndsWithConcat(p, "." + zone);
  }

  /** No name ends with a dot followed by itself. */
  lemma NoDotSelfSuffix(domain: string)
    ensures !EndsWith(domain, "." + domain)
  {
  }

  /**
   * Round trip: for a name with at least three labels the prefix, a dot and the
   * zone give the name back, and the prefix is exactly the labels before the zone.
   */
  lemma PraefixRoundTrip(domain: string)
    requires |Split(domain, '.')| >= 3
    ensures var zone := GetDnsZone(domain); var praefix := GetDomainPraefix(domain, zone);
      var labels := Split(domain, '.');
      && praefix + "." + zone == domain
      && praefix == Join(labels[..|labels| - 2], '.')
      && Split(praefix, '.') == labels[..|labels| - 2]
  {
    var labels := Split(domain, '.');
    var n := |labels|;
    var zone := GetDnsZone(domain);
    var praefix := GetDomainPraefix(domain, zone);
    var front := labels[..n - 2];
    ZoneSplit(domain);
    ZoneAnchored(domain);
    assert praefix + "." + zone == domain;
    assert |praefix| == |domain| - |zone| - 1 == |Join(front, '.')|;
    assert praefix == domain[..|praefix|] == Join(front, '.');
    NoSepTail(labels, n - 2, '.');
    SplitJoin(front, '.');
  }

  /** A name with one or two labels is kept whole as its own prefix. */
  lemma ShortNamePraefix(domain: string)
    requires |Split(domain, '.')| <= 2
    ensures GetDomainPraefix(domain, GetDnsZone(domain)) == domain
  {
    ZoneAnchored(domain);
  }

  /** A name of three dot-free labels "a.b.c" has zone "b.c". */
  lemma ThreeLabelZone(a: string, b: string, c: string)
    requires '.' !in a && '.' !in b && '.' !in c
    ensures GetDnsZone(a + "." + b + "." + c) == b + "." + c
  {
    var labels := [a, b, c];
    assert NoSep(labels, '.');
    JoinTwo(b, c, '.');
    assert labels[1..] == [b, c];
    assert Join(labels, '.') == a + "." + (b + "." + c) == a + "." + b + "." + c;
    SplitJoin(labels, '.');
    ZoneIsLastTwoLabels(a + "." + b + "." + c);
  }

  /** The usual validation name "_acme-challenge.example.com" has zone "example.com". */
  lemma ExampleZone()
    ensures GetDnsZone("_acme-challenge.example.com") == "example.com"
  {
    var d := "_acme-challenge.example.com";
    var labels := ["_acme-challenge", "example", "com"];
    assert '.' !in labels[0] && '.' !in labels[1] && '.' !in labels[2];
    assert NoSep(labels, '.');
    assert labels[1..][1..] == ["com"];
    assert Join(labels[1..], '.') == "example.com";
    assert Join(labels, '.') == d;
    SplitJoin(labels, '.');
    ZoneIsLastTwoLabels(d);
  }

  /** Stripping ".<zone>" from "<p>.<zone>" leaves "<p>". */
  lemma PraefixStripsZone(p: string, zone: string)
    ensures GetDomainPraefix(p + "." + zone, zone) == p
  {
    assert p + "." + zone == p + ("." + zone);
    EndsWithConcat(p, "." + zone);
  }

  /** In zone "example.com" the name "_acme-challenge.example.com" has prefix "_acme-challenge". */
  lemma ExamplePraefix()
    ensures GetDomainPraefix("_acme-challenge.example.com", "example.com") == "_acme-challenge"
  {
    PraefixStripsZone("_acme-challenge", "example.com");
    assert "_acme-challenge" + "." + "example.com" == "_acme-challenge.example.com";
  }

  /**
   * The create body `add_txt_record` builds for "_acme-challenge.example.com" from
   * the zone and prefix it derives.
   */
  lemma ExampleCreateBody()
    ensures var d := "_acme-challenge.example.com"; var z := GetDnsZone(d);
      RecordBody(AddRecord, z, GetDomainPraefix(d, z), "abc123")
      == map["add_record" := "example.com", "praefix" := "_acme-challenge",
             "type" := "TXT", "content" := "abc123"]
  {
    var d := "_acme-challenge.example.com";
    var z := GetDnsZone(d);
    ExampleZone();
    ExamplePraefix();
    assert z == "example.com";
    assert GetDomainPraefix(d, z) == "_acme-challenge";
  }

  const AddLead: string := "The following error occured while adding the TXT-Record "
  const DelLead: string := "The following error occurred while deleting the TXT-Record "
  const DelSuccessLead: string := "Successfully deleted the TXT-Record "

  /**
   * Text in front of the provider's detail in a create error: the fixed lead, the
   * name, " to the zone ", the zone and ": ".
   */
  function AddErrorText(domain: string, zone: string): (t: string)
    ensures |t| == |AddLead| + |domain| + 13 + |zone| + 2
    ensures t[..|AddLead|] == AddLead && t[|AddLead|..|AddLead| + |domain|] == domain
    ensures t[|t| - |zone| - 2..] == zone + ": "
  {
    AddLead + domain + " to the zone " + zone + ": "
  }

  /**
   * What `add_txt_record` makes of the provider's reply. It succeeds exactly when
   * `info` is "success". "Unauthorized" is tested first, so it raises with the
   * `info` text even when the reply has no `add_record`; any other value raises
   * with the `add_record` text, or with a KeyError when that key is missing.
   */
  function AddOutcome(domain: string, zone: string, reply: Reply): (o: Outcome)
    ensures o == Ok <==> reply.info == Some("success")
    ensures !o.NameError?
    ensures reply.info == Some("Unauthorized") ==> o == PluginError(AddErrorText(domain, zone) + "Unauthorized")
    ensures reply.info == None ==> o == KeyError("info")
    ensures reply.info.Some? && reply.info.value != "Unauthorized" && reply.info.value != "success" ==>
      o == if reply.addRecord.Some? then PluginError(AddErrorText(domain, zone) + reply.addRecord.value)
           else KeyError("add_record")
  {
    match reply.info
    case None => KeyError("info")
    case Some(info) =>
      if info == "Unauthorized" then PluginError(AddErrorText(domain, zone) + info)
      else if info != "success" then
        match reply.addRecord
        case None => KeyError("add_record")
        case Some(detail) => PluginError(AddErrorText(domain, zone) + detail)
      else Ok
  }

  /** A line `del_txt_record` logs after reading the reply. */
  datatype LogEntry = Warning(text: string) | Info(text: string)

  /** What `del_txt_record` leaves behind: the lines it logged and how it ended. */
  datatype CleanupReport = CleanupReport(log: seq<LogEntry>, outcome: Outcome)

  /**
   * Text in front of the provider's detail in a delete warning: the fixed lead
   * (spelt "occurred", unlike the create error), the name, " in the zone ", the
   * zone and ": ".
   */
  function DelWarningText(domain: string, zone: string): (t: string)
    ensures |t| == |DelLead| + |domain| + 13 + |zone| + 2
    ensures t[..|DelLead|] == DelLead && t[|DelLead|..|DelLead| + |domain|] == domain
    ensures t[|t| - |zone| - 2..] == zone + ": "
  {
    DelLead + domain + " in the zone " + zone + ": "
  }

  /** The line logged after a successful delete: the lead, the name, " from the zone " and the zone. */
  function DelSuccessText(domain: string, zone: string): (t: string)
    ensures |t| == |DelSuccessLead| + |domain| + 15 + |zone|
    ensures t[..|DelSuccessLead|] == DelSuccessLead
    ensures t[|DelSuccessLead|..|DelSuccessLead| + |domain|] == domain
    ensures t[|t| - |zone|..] == zone
  {
    DelSuccessLead + domain + " from the zone " + zone
  }

  /**
   * What `del_txt_record` makes of the provider's reply. It never raises a
   * PluginError: a rejected delete only logs warnings. The two tests are separate
   * `if`s, so "Unauthorized" logs a warning with `info` and then a second one with
   * `add_record`. Only a reply lacking a key it reads makes it raise (a KeyError).
   */
  function DelOutcome(domain: string, zone: string, reply: Reply): (r: CleanupReport)
    ensures !r.outcome.PluginError? && !r.outcome.NameError?
    ensures r.outcome.KeyError? <==>
      reply.info == None || (reply.info != Some("success") && reply.addRecord == None)
    ensures reply.info == Some("success") ==> r == CleanupReport([Info(DelSuccessText(domain, zone))], Ok)
    ensures reply.info.Some? && reply.info != Some("success") ==>
      forall i :: 0 <= i < |r.log| ==> r.log[i].Warning?
    ensures reply.info == Some("Unauthorized") && reply.addRecord.Some? ==>
      r.log == [Warning(DelWarningText(domain, zone) + "Unauthorized"),
                Warning(DelWarningText(domain, zone) + reply.addRecord.value)]
    ensures reply.info.Some? && reply.info.value != "Unauthorized" && reply.info.value != "success"
            && reply.addRecord.Some? ==>
      r.log == [Warning(DelWarningText(domain, zone) + reply.addRecord.value)]
    ensures reply.info == None ==> r == CleanupReport([], KeyError("info"))
    ensures reply.info == Some("Unauthorized") && reply.addRecord == None ==>
      r == CleanupReport([Warning(DelWarningText(domain, zone) + "Unauthorized")], KeyError("add_record"))
    ensures reply.info.Some? && reply.info.value != "Unauthorized" && reply.info.value != "success"
            && reply.addRecord == None ==>
      r == CleanupReport([], KeyError("add_record"))
  {
    match reply.info
    case None => CleanupReport([], KeyError("info"))
    case Some(info) =>
      var first := if info == "Unauthorized" then [Warning(DelWarningText(domain, zone) + info)] else [];
      if info != "success" then
        match reply.addRecord
        case None => CleanupReport(first, KeyError("add_record"))
        case Some(detail) => CleanupReport(first + [Warning(DelWarningText(domain, zone) + detail)], Ok)
      else CleanupReport([Info(DelSuccessText(domain, zone))], Ok)
  }

  /**
   * The delete policy against the create policy: on a reply that carries both
   * keys, a delete always returns normally, and it logs a warning exactly when a
   * create given the same reply would raise.
   */
  lemma DeleteOnlyWarnsWhereAddRaises(domain: string, zone: string, reply: Reply)
    requires reply.info.Some? && reply.addRecord.Some?
    ensures DelOutcome(domain, zone, reply).outcome == Ok
    ensures AddOutcome(domain, zone, reply).PluginError? <==>
      exists i :: 0 <= i < |DelOutcome(domain, zone, reply).log| && DelOutcome(domain, zone, reply).log[i].Warning?
  {
    var r := DelOutcome(domain, zone, reply);
    if reply.info != Some("success") {
      assert r.log[|r.log| - 1].Warning?;
    } else {
      assert r.log == [Info(DelSuccessText(domain, zone))];
    }
  }

  /** `ipv64_client`: the endpoint and the authorization header, fixed at construction. */
  class Ipv64Client {
    const apiUrl: string
    const authHeader: map<string, string>

    constructor (bearerToken: string)
      ensures apiUrl == ApiUrl
      ensures authHeader == AuthHeader(bearerToken)
    {
      apiUrl := ApiUrl;
      authHeader := AuthHeader(bearerToken);
    }

    /**
     * `add_txt_record`: posts the create body for `domain` to the endpoint with the
     * client's header; `provider` stands for the HTTP exchange and the JSON decoding.
     */
    method AddTxtRecord(domain: string, content: string, provider: Request -> Reply)
      returns (request: Request, outcome: Outcome)
      ensures var zone := GetDnsZone(domain);
        request == Request(Post, apiUrl, authHeader,
                           RecordBody(AddRecord, zone, GetDomainPraefix(domain, zone), content))
      ensures outcome == AddOutcome(domain, GetDnsZone(domain), provider(request))
      ensures outcome == Ok <==> provider(request).info == Some("success")
    {
      var dnsZone := GetDnsZone(domain);
      var praefix := GetDomainPraefix(domain, dnsZone);
      request := Request(Post, apiUrl, authHeader, RecordBody(AddRecord, dnsZone, praefix, content));
      var response := provider(request);
      outcome := AddOutcome(domain, dnsZone, response);
    }

    /**
     * `del_txt_record`: sends the delete body for `domain` with the client's header
     * and only logs when the provider rejects the delete.
     */
    method DelTxtRecord(domain: string, content: string, provider: Request -> Reply)
      returns (request: Request, report: CleanupReport)
      ensures var zone := GetDnsZone(domain);
        request == Request(Delete, apiUrl, authHeader,
                           RecordBody(DelRecord, zone, GetDomainPraefix(domain, zone), content))
      ensures report == DelOutcome(domain, GetDnsZone(domain), provider(request))
      ensures !report.outcome.PluginError?
    {
      var dnsZone := GetDnsZone(domain);
      var praefix := GetDomainPraefix(domain, dnsZone);
      request := Request(Delete, apiUrl, authHeader, RecordBody(DelRecord, dnsZone, praefix, content));
      var response := provider(request);
      report := DelOutcome(domain, dnsZone, response);
    }
  }

  /** The part of the certbot authenticator that checks the token and makes the client. */
  class Authenticator {
    var ipv64: Ipv64Client?

    constructor ()
      ensures ipv64 == null
    {
      ipv64 := null;
    }

    /**
     * `_validate_credentials`: a token whose length is not 32 raises and leaves the
     * client as it was; a 32-character token installs a new client that sends
     * "Bearer <token>" to the fixed endpoint.
     */
    method ValidateCredentials(bearerToken: string) returns (error: Option<string>)
      modifies this
      ensures error.Some? <==> |bearerToken| != TokenLength
      ensures error.Some? ==> error.value == TokenLengthError && ipv64 == old(ipv64)
      ensures error.None? ==> ipv64 != null && fresh(ipv64)
                              && ipv64.apiUrl == ApiUrl && ipv64.authHeader == AuthHeader(bearerToken)
    {
      if |bearerToken| != TokenLength {
        error := Some(TokenLengthError);
      } else {
        ipv64 := new Ipv64Client(bearerToken);
        error := None;
      }
    }
  }
}
