# certbot-dns-ipv64: name handling and reply classification, in Dafny

This project models the client core of the certbot DNS plugin for the IPv64 DNS provider.
The plugin answers an ACME dns-01 challenge by creating a TXT record for the validation name
`_acme-challenge.<domain>`, and removes it again afterwards, through the provider's API at
`https://ipv64.net/api.php`. The repository holds two variants of the client:

- `dns_ipv64.py` (module `DnsIpv64`);
- `certbot_dns_ipv64/_internal/dns_ipv64.py` (module `DnsIpv64Internal`).

What the two variants compute, and what the model proves about it:

- **Zone.** The zone is the last two dot-separated labels of the validation name:
  `'.'.join(name.split('.')[-2:])`. A one-label name is its own zone. The zone is always a
  suffix of the name and holds at most one dot. Taking the zone of a zone changes nothing.
  A name ends with `.<zone>` exactly when it has three or more labels.
- **Record prefix.** The root variant strips the suffix `.<zone>` with `removesuffix`. The
  `_internal` variant drops the last `len(zone) + 1` characters by position (`name[:-len(zone)-1]`).
  For three or more labels both give the leading labels, and `prefix + "." + zone == name`.
  In general the two agree exactly when the name has three or more labels, or is empty.
  A two-label name such as `example.com` gets `""` from the `_internal` variant and the whole
  name from the root variant. A non-empty one-label name diverges the same way.
- **Request.** Create posts the form body `{add_record: zone, praefix, type: "TXT", content}`.
  Delete sends the same body with `del_record` in place of `add_record`. Both use the header
  `Authorization: Bearer <token>`.
- **Reply classification.** `info == "Unauthorized"` is tested first and raises with the `info`
  text. Any other value except `"success"` raises with the reply's `add_record` text. `"success"`
  returns normally. The code indexes the decoded reply with `[...]`, so a missing key raises
  a `KeyError`. The model keeps that: each reply field is an `Option`.
- **Delete policy.** The root `del_txt_record` never raises a `PluginError`. A rejected delete
  only logs warnings, and `"Unauthorized"` logs two of them because the two tests are separate
  `if`s. It still reads `add_record` on every non-success reply, so a reply without that key
  raises a `KeyError`. The `_internal` variant hands delete replies to the same `_check_errors`
  as create, so a rejected delete raises.
- **Credentials.** A bearer token whose length is not 32 is rejected with the message
  "The bearer_token must be 32 characters long", and the authenticator's client is left as it
  was. A 32-character token installs a new client that holds the fixed endpoint and the header
  `"Bearer " + token`. A Dafny `string` is a sequence of Unicode scalar values. For a Python
  `str` without lone surrogates, its length is Python's `len`.

The HTTP exchange, including JSON decoding, is a parameter of the client methods:
`provider: Request -> Reply`. Each method states which request it sends, and ties its outcome
to a classification function of the reply that request gets.

The modules:

- `PyStr` models the Python primitives the clients use: `split` on one character, `join`,
  slices with negative bounds, and `removesuffix`.
- `Ipv64Api` holds the wire shapes that both files share: the reply, the request, the form
  body, the outcome and the header.

Three things the code does not do:

- It raises no separate malformed-name error. The root client keeps a name that does not end
  with `.<zone>` whole as its prefix.
- The `_internal` variant has no non-fatal delete. It raises on a failed delete.
- There is no separate error kind for an authorization failure. Create in both variants, and
  `_check_errors`, raise a `PluginError` both for `"Unauthorized"` and for a rejected request.
  The two differ only in the message. A missing reply key is a `KeyError`, as it is everywhere.

## Model

| member | source | states |
|---|---|---|
| PyStr.Count | dns_ipv64.py:62 | the number of dots in a name is at most its length, and it is zero exactly when the name has no dot |
| PyStr.Join | dns_ipv64.py:62 | `'.'.join` starts with the first part, and with two or more parts a dot comes right after it |
| PyStr.JoinCount | dns_ipv64.py:62 | joining k ≥ 1 dot-free labels gives a string with exactly k - 1 dots |
| PyStr.EndsWith | dns_ipv64.py:66 | the test `removesuffix` makes: a string ends with a suffix exactly when the suffix is no longer and the string is its front part followed by the suffix |
| PyStr.Split | dns_ipv64.py:62 | `split('.')` gives one part more than there are dots, no part holds a dot, and joining the parts with dots gives the name back |
| PyStr.SplitJoin | certbot_dns_ipv64/_internal/dns_ipv64.py:59 | splitting undoes joining on dot-free labels, so a name's labels are determined by the name |
| PyStr.JoinConcat | dns_ipv64.py:62 | joining two non-empty label lists puts exactly one dot between their joins |
| PyStr.SliceFrom | dns_ipv64.py:62 | `xs[-2:]` keeps the last `min(2, len(xs))` elements, clamped as Python clamps them |
| PyStr.SliceTo | certbot_dns_ipv64/_internal/dns_ipv64.py:64 | `s[:-k]` is the prefix of `s` of length `max(0, len(s) - k)` |
| PyStr.RemoveSuffix | dns_ipv64.py:66 | `removesuffix`: with a non-empty suffix the name ends with, the result followed by the suffix is the name; otherwise the name is unchanged |
| Ipv64Api.AuthHeader | dns_ipv64.py:59 | the header map has the single key `Authorization`, whose value is `"Bearer "` followed by exactly the token |
| Ipv64Api.RecordBody | dns_ipv64.py:76 | the body has exactly four keys: the action key holds the zone, and `praefix`, `type = "TXT"` and the unchanged content |
| Ipv64Api.Action.Key | dns_ipv64.py:76-97 | the zone goes under `add_record` for a create and under `del_record` for a delete, and under no other key |
| Ipv64Api.CreateDeleteBodiesDiffer | dns_ipv64.py:76-97 | a create body has `add_record` and no `del_record`, and a delete body the reverse; without their action keys the two bodies are equal |
| DnsIpv64.GetDnsZone | dns_ipv64.py:61-63 | a name with at most two labels is its own zone (the lemma rows below cover longer names) |
| DnsIpv64.ZoneSplit | dns_ipv64.py:61-63 | with three or more labels the name is the join of its leading labels, a dot and the zone; with fewer the zone is the whole name |
| DnsIpv64.ZoneIsLastTwoLabels | dns_ipv64.py:61-63 | with two or more labels the zone is the last two labels joined by a dot, and splitting it gives those two labels; one label is its own zone |
| DnsIpv64.ZoneIsSuffix | dns_ipv64.py:61-63 | the zone is a suffix of the name and holds at most one dot |
| DnsIpv64.ZoneIdempotent | dns_ipv64.py:61-63 | the zone of the zone is the zone |
| DnsIpv64.ZoneAnchored | dns_ipv64.py:61-67 | a name ends with `.<zone>` if and only if it has at least three labels |
| DnsIpv64.GetDomainPraefix | dns_ipv64.py:65-67 | when the name ends with `.<zone>`, prefix + `.` + zone is the name; otherwise the prefix is the name unchanged |
| DnsIpv64.PraefixRoundTrip | dns_ipv64.py:61-72 | for three or more labels, prefix + `.` + zone is the name, and the prefix is the leading labels joined, whose split gives those labels back |
| DnsIpv64.ShortNamePraefix | dns_ipv64.py:65-67 | a name with one or two labels is returned whole as its prefix |
| DnsIpv64.ExampleZone | dns_ipv64.py:61-63 | `_acme-challenge.example.com` has zone `example.com` |
| DnsIpv64.ExamplePraefix | dns_ipv64.py:65-67 | in zone `example.com`, the name `_acme-challenge.example.com` has prefix `_acme-challenge` |
| DnsIpv64.ExampleCreateBody | dns_ipv64.py:71-76 | the create body built for `_acme-challenge.example.com` from its derived zone and prefix is exactly `{add_record: "example.com", praefix: "_acme-challenge", type: "TXT", content}` |
| DnsIpv64.AddErrorText | dns_ipv64.py:81-85 | a create error starts with the fixed lead ("occured"), then the name; it ends with the zone and `": "` |
| DnsIpv64.DelWarningText | dns_ipv64.py:101-104 | a delete warning starts with its own fixed lead ("occurred"), then the name; it ends with the zone and `": "` |
| DnsIpv64.DelSuccessText | dns_ipv64.py:107 | the delete success line starts with its fixed lead, then the name, and ends with the zone |
| DnsIpv64.AddOutcome | dns_ipv64.py:79-88 | create succeeds if and only if `info` is `"success"`; `"Unauthorized"` raises with the `info` text even when `add_record` is missing; any other value raises with the `add_record` text, or with a KeyError when that key is missing |
| DnsIpv64.DelOutcome | dns_ipv64.py:100-107 | delete never raises a PluginError; it raises a KeyError exactly when a key it reads is missing; `"success"` logs one info line; `"Unauthorized"` logs two warnings, one with `info` and one with `add_record`; other failures log one warning with `add_record`; without `info` it logs nothing and raises on `info`; without `add_record`, `"Unauthorized"` logs its first warning and then raises on `add_record`, and any other failure logs nothing and raises on `add_record` |
| DnsIpv64.DeleteOnlyWarnsWhereAddRaises | dns_ipv64.py:79-107 | on a reply with both keys, delete returns normally, and it logs a warning exactly when a create on the same reply would raise |
| DnsIpv64.Ipv64Client.constructor | dns_ipv64.py:57-59 | the client holds the fixed endpoint and the `Bearer` header of its token |
| DnsIpv64.Ipv64Client.AddTxtRecord | dns_ipv64.py:69-88 | posts the create body with the derived zone and prefix to the client's endpoint with its header, and returns the create classification of the reply, which is normal exactly on `"success"` |
| DnsIpv64.Ipv64Client.DelTxtRecord | dns_ipv64.py:90-107 | sends the delete body with the derived zone and prefix, returns the delete report of the reply, and never raises a PluginError |
| DnsIpv64.Authenticator.ValidateCredentials | dns_ipv64.py:26-34 | fails if and only if the token length is not 32; on failure it returns the fixed message and leaves the client unchanged; on success it installs a fresh client with the endpoint and `"Bearer " + token` |
| DnsIpv64Internal.GetDnsZone | certbot_dns_ipv64/_internal/dns_ipv64.py:58-60 | the zone is the same as the root variant's for every name |
| DnsIpv64Internal.GetDomainPrefix | certbot_dns_ipv64/_internal/dns_ipv64.py:62-65 | the prefix is the name without its last `len(zone) + 1` characters, and it is `""` exactly when the name is no longer than that |
| DnsIpv64Internal.PrefixVariantsAgreeIff | certbot_dns_ipv64/_internal/dns_ipv64.py:62-65 | for any zone, the positional prefix equals the root's suffix-stripping prefix if and only if the name ends with `.<zone>` or is empty |
| DnsIpv64Internal.DerivedPrefixesAgreeIff | certbot_dns_ipv64/_internal/dns_ipv64.py:58-65 | with the derived zone, the two prefix variants agree if and only if the name has at least three labels or is empty |
| DnsIpv64Internal.PrefixRoundTrip | certbot_dns_ipv64/_internal/dns_ipv64.py:58-65 | for three or more labels, prefix + `.` + zone is the name, and the prefix is the root variant's |
| DnsIpv64Internal.TwoLabelPrefixDiverges | certbot_dns_ipv64/_internal/dns_ipv64.py:62-65 | a two-label name is its own zone; its positional prefix is `""`, while the root variant returns the non-empty name |
| DnsIpv64Internal.CheckErrorsAsWritten | certbot_dns_ipv64/_internal/dns_ipv64.py:67-69 | as written, every call raises a NameError on `response`, which differs from the corrected classification of every reply |
| DnsIpv64Internal.CheckErrorsAsWrittenAlwaysRaises | certbot_dns_ipv64/_internal/dns_ipv64.py:67-69 | as written, every call raises a NameError on `response`, even for a `"success"` reply that the corrected check accepts |
| DnsIpv64Internal.CheckErrors | certbot_dns_ipv64/_internal/dns_ipv64.py:67-77 | normal exactly on `"success"`; `"Unauthorized"` first, with the `info` text; any other value with the `add_record` text, or a KeyError when that key is missing |
| DnsIpv64Internal.CheckErrorsMatchesRootAdd | certbot_dns_ipv64/_internal/dns_ipv64.py:67-77 | classifies every reply as the root create does: the same replies succeed, the same key is reported missing, and each PluginError carries the same provider text after each variant's own preamble |
| DnsIpv64Internal.DeleteFailurePropagates | certbot_dns_ipv64/_internal/dns_ipv64.py:91-101 | a rejecting reply that carries `add_record` makes this variant's delete raise, where the root delete returns normally |
| DnsIpv64Internal.IPv64Client.constructor | certbot_dns_ipv64/_internal/dns_ipv64.py:54-56 | the client holds the fixed endpoint and the `Bearer` header of its token |
| DnsIpv64Internal.IPv64Client.AddTxtRecord | certbot_dns_ipv64/_internal/dns_ipv64.py:79-89 | posts the create body with the positional prefix to the client's endpoint with its header; the outcome is `CheckErrors` of the reply, normal exactly on `"success"` |
| DnsIpv64Internal.IPv64Client.DelTxtRecord | certbot_dns_ipv64/_internal/dns_ipv64.py:91-101 | sends the delete body with the positional prefix; the outcome is `CheckErrors` of the reply, so failures propagate, and it is normal exactly on `"success"` |
| DnsIpv64Internal.Authenticator.ValidateCredentials | certbot_dns_ipv64/_internal/dns_ipv64.py:24-31 | fails if and only if the token length is not 32; on failure it returns the fixed message and leaves the client unchanged; on success it installs a fresh client with the endpoint and `"Bearer " + token` |

## Left out

- `requests.post`, `requests.delete` and `response.json()` are network I/O and decoding. A `provider` function stands in for them. Transport, timeout and decoding errors are not modelled. Every JSON value read is taken to be a string.
- Logging: only the lines the root `del_txt_record` logs after reading the reply are modelled, because they are that call's only observable effect. The "Adding"/"Deleting" info lines, the `logger.error` calls before each raise and the success info lines of create are not modelled. The raised message of each error is modelled.
- The certbot plugin glue is framework code: `add_parser_arguments`, `more_info`, `_setup_credentials`, `_configure_credentials`, the `_perform`/`_cleanup` forwarding to the client, and the `description`/`api_url` class attributes. `credentials.conf('bearer-token')` is replaced by the token passed in.
- Certbot's construction of the plugin object is framework code. Each `Authenticator` class here has a constructor that only starts with no client.
- setup.py is packaging metadata only.
- Strings containing lone surrogate code points (U+D800 to U+DFFF) are not modelled. Python's `str` can hold them but a Dafny `char` cannot.
- The zone is the code's two-label heuristic, not a Public Suffix List lookup.
- The NameError that `_check_errors` raises as written is not carried into the `_internal` client methods. They use the corrected classification of the reply passed in (see Findings).

## Findings

| source | as written | input that shows it | evidently intended | confidence | as-written member | corrected member |
|---|---|---|---|---|---|---|
| certbot_dns_ipv64/_internal/dns_ipv64.py:67-77 | `_check_errors(self, json)` tests `response.json()['info']`, but `response` is not defined in the method, so every call raises a NameError before the reply is looked at; create and delete therefore always fail | any reply, e.g. `{"info": "success"}` after a successful create | classify the reply that is passed in: `"Unauthorized"`, then non-`"success"`, then success | not executed; high (the name is plainly unbound in the method) | DnsIpv64Internal.CheckErrorsAsWrittenAlwaysRaises | DnsIpv64Internal.CheckErrors |
