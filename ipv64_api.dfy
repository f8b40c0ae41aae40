/**
 * What both IPv64 client files exchange with the provider at https://ipv64.net/api.php:
 * the request (method, URL, headers, form body), the decoded JSON reply and the
 * outcome a client operation hands back to certbot (normal return or a raised error).
 */
module Ipv64Api {

  datatype Option<+T> = None | Some(value: T)

  /** The fixed endpoint both clients post to and delete from. */
  const ApiUrl: string := "https://ipv64.net/api.php"

  /** Length a bearer token must have to be accepted. */
  const TokenLength: nat := 32

  /** Message of the error raised for a token of the wrong length. */
  const TokenLengthError: string := "The bearer_token must be 32 characters long"

  /** What the certbot side sees of a client call. */
  datatype Outcome =
    | Ok                              // the call returned normally
    | PluginError(message: string)    // certbot's errors.PluginError was raised
    | KeyError(key: string)           // a key the code looks up was missing from the reply
    | NameError(name: string)         // the code read a name that is not defined

  /**
   * The decoded JSON reply. A field is `None` when the reply has no such key: the
   * code indexes it with `[...]`, so reading it then raises a KeyError.
   */
  datatype Reply = Reply(info: Option<string>, addRecord: Option<string>)

  datatype Verb = Post | Delete

  /** An HTTP request as the client hands it to `requests`. */
  datatype Request = Request(verb: Verb, url: string, headers: map<string, string>, data: map<string, string>)

  /** Which record operation a body asks for; the key that carries the zone names it. */
  datatype Action = AddRecord | DelRecord
  {
    function Key(): (k: string)
      ensures k == "add_record" || k == "del_record"
      ensures (k == "add_record") <==> this == AddRecord
    {
      match this
      case AddRecord => "add_record"
      case DelRecord => "del_record"
    }
  }

  /** The `headers` argument of every request made with `bearerToken`. */
  function AuthHeader(bearerToken: string): (h: map<string, string>)
    ensures h.Keys == {"Authorization"}
    ensures |h["Authorization"]| == 7 + |bearerToken|
    ensures h["Authorization"][..7] == "Bearer " && h["Authorization"][7..] == bearerToken
  {
    map["Authorization" := "Bearer " + bearerToken]
  }

  /**
   * The form body of a TXT-record request: the action key carries the zone and the
   * three other keys carry the record prefix, the type "TXT" and the content unchanged.
   */
  function RecordBody(action: Action, zone: string, prefix: string, content: string): (body: map<string, string>)
    ensures body.Keys == {action.Key(), "praefix", "type", "content"}
    ensures |body.Keys| == 4
    ensures body[action.Key()] == zone
    ensures body["praefix"] == prefix && body["type"] == "TXT" && body["content"] == content
  {
    map[action.Key() := zone, "praefix" := prefix, "type" := "TXT", "content" := content]
  }

  /**
   * A create body and a delete body for the same record differ only in the key that
   * carries the zone: neither body has the other's action key.
   */
  lemma CreateDeleteBodiesDiffer(zone: string, prefix: string, content: string)
    ensures "add_record" in RecordBody(AddRecord, zone, prefix, content)
    ensures "del_record" !in RecordBody(AddRecord, zone, prefix, content)
    ensures "del_record" in RecordBody(DelRecord, zone, prefix, content)
    ensures "add_record" !in RecordBody(DelRecord, zone, prefix, content)
    ensures RecordBody(AddRecord, zone, prefix, content) - {"add_record"}
         == RecordBody(DelRecord, zone, prefix, content) - {"del_record"}
  {
    var c := RecordBody(AddRecord, zone, prefix, content);
    var d := RecordBody(DelRecord, zone, prefix, content);
    assert (c - {"add_record"}).Keys == (d - {"del_record"}).Keys == {"praefix", "type", "content"};
  }
}
