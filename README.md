# ClouDNS API client: request construction and dispatch

This project models the `ClouDNSAPI` client of the `cloudns_sdk` package in
Dafny. The client turns each DNS-management operation into one request
against `https://api.cloudns.net`. Every operation except `add_record` and
`modify_record` builds a parameter set, adds the account credentials
(`auth-id`, `auth-password`) and calls `make_request`. Those two never get
that far (see below). That call picks GET (query parameters) or POST (body data),
hands the request to the HTTP transport, and turns a non-200 status into an
API error that carries the decoded body.

The model has five modules:

- `Wire` holds the values in a parameter set. A Python value is `VNone`,
  `VBool`, `VInt` or `VStr`, and `Truthy` gives its Python truthiness. A
  parameter set is either a dictionary (`map<string, Value>`) or an ordered
  list of pairs (`seq<(string, Value)>`) in which a key may repeat. `Json`
  is a decoded response body. `KeyCount` counts the pairs with a given key.
- `Dispatch` is `make_request`. `Prepare` builds the request descriptor or
  the unsupported-method error. `Conclude` is the status check.
  `MakeRequest` combines the two. The transport is a function from request
  to `Response(status, body)`, where the body is `None` when it is not JSON.
  Each call returns an `Exchange`: the list of requests handed to the
  transport, and the outcome. "No network access" therefore reads
  `sent == []`.
- `Operations` holds the credentials merge `_auth_params` (`AuthParams`) and
  every operation whose parameters are a dictionary literal. Each such
  operation is a constructor of `Operation`, with the Python defaults.
  `Endpoint`, `HttpMethod` and `BuildParams` tabulate what each one sends,
  and `Perform` is the Python method itself.
- `PairLists` holds `register_domain_zone` and `import_records`. Their pair
  lists are grown by loops that append `ns[]` and `record-types[]` pairs.
- `Records` holds `add_record` and `modify_record`. `Gather` is a loop that
  collects the non-`None` named arguments and then merges in the keyword
  arguments. `Collected` and `RecordData` are the functions that specify it.
  The validator is a function parameter.

Three behaviours of the code differ from what one might expect of the
client, and the model follows the code in each case:

- Seven POST operations pass their parameters as `params=` (delete zone,
  update zone, change zone status, delete record, copy records, register
  zone, import records). But `make_request` sends `data or {}` on POST.
  These requests therefore go out with an empty body, without credentials
  (`Operations.CredentialsOnWire`, `PairLists.RegisterDomainZone`,
  `PairLists.ImportRecords`). Only `login` sends its dictionary as the body.
- In the dictionary-literal operations, arguments left at `None` stay in
  the dictionary as `None`-valued keys. Those builders never omit them
  (`Operations.UnsetArgumentsKept`). `register_domain_zone` does drop a
  falsy `master-ip` and adds no `ns[]` pairs for `None`, and `add_record` and
  `modify_record` filter out `None` named arguments. Dropping them
  would happen inside the HTTP library, which is not part of this model.
- `add_record` and `modify_record` never send a request. For an invalid
  record they raise `ValueError("Error: …")`. For a valid one they evaluate
  `{record_data}`, a set display holding a dictionary, and that raises
  `TypeError` before `make_request` runs. No flattened body is modelled for
  that path.

## Model

| member | source | states |
|---|---|---|
| `Dispatch.Prepare` | cloudns_sdk/api.py:15-23 | a descriptor exists exactly for GET and POST; otherwise the error "Unsupported HTTP method"; the URL is the base URL, a slash and the endpoint; GET carries `params or {}` as its query, POST carries `data or {}` as its body |
| `Dispatch.Conclude` | cloudns_sdk/api.py:25-28 | success exactly when the status is 200 and the body decodes, returning that body; an API error carrying the decoded body exactly when the status is not 200; a decode failure whenever the body is not JSON |
| `Dispatch.MakeRequest` | cloudns_sdk/api.py:15-28 | an invalid-argument outcome exactly for a method other than GET/POST, and then no request is sent; otherwise exactly one request to the endpoint's URL, whose outcome is the status check of the transport's answer |
| `Dispatch.UrlShape` | cloudns_sdk/api.py:16 | the URL begins with `https://api.cloudns.net/` and continues with the endpoint unchanged, so distinct endpoints give distinct URLs |
| `Dispatch.UnsupportedMethodNeverSends` | cloudns_sdk/api.py:18-23 | for an unsupported method, the result is the same whatever the transport and the sent list is empty |
| `Dispatch.PayloadChoice` | cloudns_sdk/api.py:17-21 | a POST does not depend on `params`, and a GET does not depend on `data` |
| `Dispatch.PostWithoutDataSendsEmptyBody` | cloudns_sdk/api.py:20-21 | a POST given only `params=` sends the empty dictionary as its body |
| `Dispatch.PayloadSentAsGiven` | cloudns_sdk/api.py:17-21 | a non-empty payload is sent unchanged; an empty one is sent as `{}` |
| `Operations.AuthParams` | cloudns_sdk/api.py:30-37 | with no or empty extra parameters, exactly the two credentials; otherwise the keys are the credentials plus the extra keys; every extra key keeps its value, so on a clash the extra value wins; a credential stays as given unless the extra set names it |
| `Operations.Extra` | cloudns_sdk/api.py:47-189 | no operation's extra dictionary names a credential key; every operation with a domain name puts it in its extra dictionary under `domain-name` |
| `Operations.BuildParams` | cloudns_sdk/api.py:39-191 | every operation's dictionary carries both credentials under their wire names, and carries the domain-name argument unchanged when the operation has one |
| `Operations.Perform` | cloudns_sdk/api.py:39-191 | each dictionary-literal client method sends exactly one request to its endpoint: a GET with the whole dictionary as its query, `login` with its dictionary as the body, every other POST with an empty body |
| `Operations.CredentialsOnWire` | cloudns_sdk/api.py:39-191 | the credentials reach the wire exactly for GET operations and `login`; the domain name reaches it unchanged for the GET operations with one; the other POSTs send nothing |
| `Operations.UnsetArgumentsKept` | cloudns_sdk/api.py:81-150 | every key an operation names is in its dictionary with the argument's value, `None` included, and no other key besides the credentials |
| `Operations.CopyRecordsFlag` | cloudns_sdk/api.py:184-189 | `delete-current-records` is 1 or 0, and 1 exactly when the flag is truthy; `domain-name` and `from-domain` equal the inputs |
| `Operations.RejectedEverywhere` | cloudns_sdk/api.py:25-26 | a transport that answers every request with a non-200 status and a JSON body makes every operation fail with an API error carrying that exact body |
| `PairLists.RegisterDomainZoneParams` | cloudns_sdk/api.py:56-69 | the list starts with `auth-id`, `auth-password`, `domain-name`, `zone-type` holding the credentials and the inputs; then comes one `ns[]` pair per name server, in input order; `master-ip` is the last pair exactly when it is truthy; so the length is 4 + \|ns\| + (1 or 0) |
| `PairLists.RegisterCounts` | cloudns_sdk/api.py:64-69 | in any list with that layout, `ns[]` occurs exactly \|ns\| times, and `master-ip` occurs once when it is truthy and never otherwise |
| `PairLists.RegisterDomainZone` | cloudns_sdk/api.py:56-71 | sends one POST to `dns/register.json` with an empty body, and its outcome is the status check of the answer |
| `PairLists.ImportRecordsParams` | cloudns_sdk/api.py:194-210 | the list starts with the five fixed pairs (`auth-id`, `auth-password`, `domain-name`, `format`, `content`) holding the credentials and inputs; then comes one `record-types[]` pair per type, in input order; the last pair is `delete-existing-records`, 1 when the flag is truthy and else 0; so the length is 6 + \|types\| |
| `PairLists.ImportCounts` | cloudns_sdk/api.py:203-210 | in any list with that layout, `record-types[]` occurs exactly \|types\| times and `delete-existing-records` exactly once |
| `PairLists.ImportRecords` | cloudns_sdk/api.py:194-212 | sends one POST to `dns/records-import.json` with an empty body, and its outcome is the status check of the answer |
| `Records.CollectedMeaning` | cloudns_sdk/api.py:153 | the comprehension `Records.Collected` holds exactly the named arguments that are not `None`, under their names and with their values; no value is `None` |
| `Records.RecordData` | cloudns_sdk/api.py:153-154 | every keyword argument is present with its own value, overriding a named one; a `None` value can come only from the keyword arguments; no key except the non-`None` named arguments and the keyword arguments |
| `Records.Gather` | cloudns_sdk/api.py:153-154 | the walk over the arguments followed by the update produces exactly the record data |
| `Records.AddRecord` | cloudns_sdk/api.py:152-162 | never sends a request; an invalid record fails with "Error: " and the validator's detail; a valid one fails with the `TypeError` of the set display |
| `Records.ModifyRecord` | cloudns_sdk/api.py:171-182 | as `add_record`, with the record data of `modify_record`'s named arguments |
| `Records.AddRecordData` | cloudns_sdk/api.py:152-156 | the validator sees `domain_name` and `record_type` unchanged unless a keyword argument replaces them; it sees no `record` key when the record is `None`; it sees no key outside the five parameter names and the keyword arguments |

## Left out

- The rate limiter (`rate_limited`, `RATE_LIMIT_PER_SECOND = 20`) is not part of this model. Its source `cloudns_sdk/rate_limit.py` is not part of this model either, and it is clock and sleep timing.
- The HTTP transport and JSON decoding (`requests.get`, `requests.post`, `response.json()`) are foreign network I/O. They are a function parameter returning a status and a decoded body, or `None` for a body that is not JSON. The transport is total, so the connection and timeout exceptions `requests` can raise, which propagate to the caller, do not arise in the model.
- Dictionary parameter sets are maps, so the insertion order of a Python dictionary is not modelled. `requests` keeps that order when it encodes a query or form body: the credentials come first, and a key the extra parameters override keeps its position. Key order is stated only for the pair lists of `PairLists`.
- `Dispatch.MakeRequest`: the default `method='GET'` is not modelled. Every call passes the method explicitly, and no call site relies on the default.
- `validate` is a function parameter; `cloudns_sdk/validations.py` is not part of this model.
- `ClouDNSAPIException` is modelled only as the outcome `ApiError(body)`; `cloudns_sdk/exceptions.py` is not part of this model.
- JSON numbers are integers only; floating point is not modelled.
- `Records.CollectedMeaning`, `Records.RecordData`, `Records.Gather`, `Records.AddRecord`, `Records.ModifyRecord`, `Records.AddRecordData`: the `locals()` of lines 153 and 173 also hold `self`, which the comprehension adds as a key. The model gathers only the named parameters, so the record data these members describe lacks the `self` entry. The claim that the validator sees no key outside the parameter names and the keyword arguments holds only up to that entry.
- `Records.RecordData`: the record data is free of `None` only for the named arguments. A keyword argument passed as `None` survives the update (line 154), so no stronger claim is made.
- `Records.AddRecord`: the `TypeError` message is taken as the fixed string "unhashable type: 'dict'". The valid path reaches neither `_auth_params` nor `make_request`, so no POST body is modelled for it.
- `PairLists.RegisterDomainZoneParams`: `ns` and `record_types` are lists (`None` or a sequence). Other Python iterables, such as a string iterated character by character, are not modelled.
- Python's rule that a keyword argument cannot repeat a named parameter is not modelled. The override by keyword arguments is stated for any keys.
- The exact text of Python exceptions other than "Unsupported HTTP method" and "Error: " plus the validator's detail is not modelled.
