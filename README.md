# Address-book service: HTTP routing and handler layer

This project models `addrservice/app.py`, the Tornado layer of the address-book
microservice. The layer maps HTTP requests to the storage collaborator
(`AddressBookService`). It also maps what the collaborator returns or raises
to a status code, a reason phrase, headers and a JSON body. The model covers:

- the route table: four whole-path patterns, tried in order, and the default
  handler configured as 404 / "Unknown Endpoint";
- each handler method, including its `try`/`except` clauses and their order;
- `write_error`'s error envelope `{method, uri, code, message[, trace]}`;
- the readiness status rule;
- the `Location` URI of a created entry;
- the access log's severity choice.

Modules:

- `FirstMatch` is the first-match search. Python's `except` clauses and
  Tornado's rule list both use it.
- `Python` holds the exception classes and their inheritance, the
  call outcome `Returned(v)` / `Raised(e)`, decoded JSON values and truthiness.
- `Routes` holds the patterns, the rule table, routing and `EntryUri`.
- `Responses` holds the response record, reason phrases, the failure kinds,
  the envelope, `send_error`'s response and the log severity.
- `Endpoints` holds one decision function per handler method, the whole
  request as the function `Serve`, and lemmas on the decision tables.
- `Handlers` holds the class `RequestHandler`. Its fields `status`, `reason`,
  `headers`, `body` and `finished` are updated by methods named after the
  source's handler methods, and each method is proved against its decision
  function. `ServeRequest` runs one request through a fresh handler and is
  proved equal to `Serve`.
- `Properties` holds end-to-end lemmas about `Serve`.

The collaborator is a value of type `Service`. Each of its calls is the
outcome it produces, and calls with arguments are functions of those
arguments. So a handler's result shows which identifier and entry it passed.
The body of a request is the outcome of
`json.loads(self.request.body.decode('utf-8'))`.

Framework behaviour the model relies on (Tornado, not this file):

- Rules are tried in list order, and a pattern must match the whole path.
- A method outside `SUPPORTED_METHODS` gets 405 before `prepare`.
- A verb the handler class does not define gets 405.
- An escaping exception goes to `send_error`. `send_error` clears the
  response and sets the `HTTPError`'s status. It uses the error's reason when
  that reason is a non-empty string, and the standard phrase otherwise. Any
  other exception gets 500. `send_error` always passes `exc_info` to
  `write_error`, so `trace` appears exactly when `serve_traceback` (the
  `debug` flag) is on.
- `finish(chunk)` writes nothing for `None`, a string as it is and a dict as
  JSON. `write` refuses any other value (a list, a number, a boolean) with a
  `TypeError` before anything is written.
- `set_header` refuses a value that holds a control character (0x00 to
  0x1F) with a `ValueError`, and the header is not set.
- An exception raised after `set_status` leaves that status in place until
  `send_error` clears it. A failed reply records such a status.

Where the documented HTTP contract and the code differ, the model follows the
code:

- The liveness body key is `uptime`, not `uptime_millis`.
- The readiness 503 response carries the status snapshot as its body, not an
  error envelope (`Properties.ResponseShapes`).
- A body that is not valid UTF-8 raises `UnicodeDecodeError`. That class is a
  `ValueError` but not a `JSONDecodeError`, so POST and PUT answer 400 with
  the decoder's message, not "Invalid JSON body"
  (`Endpoints.DecodeErrorClauseOrder`).
- A `KeyError` raised by `post_address` is not caught by POST and becomes 500.
- A snapshot without `ready` raises `KeyError` in the readiness handler and
  becomes 500.
- GET on an entry or on the collection answers 500 when the collaborator
  returns a list, a number or a boolean, because `finish` refuses it
  (`Endpoints.GetDeleteOutcomes`, `Properties.LivenessAndCollectionResponses`).
- An identifier holding a control character cannot become a `Location`:
  POST answers 400 with the `ValueError`'s message
  (`Properties.UnsafeLocationResponse`).

## Model

| member | source | states |
|---|---|---|
| `FirstMatch.FirstIndex` | addrservice/app.py:171-178 | the selected index is the first element satisfying the test, or the length when none does |
| `Routes.Route` | addrservice/app.py:170-184 | a path goes to the default handler exactly when no rule matches it; otherwise it goes to the handler of the first matching rule, with that rule's captures, and every earlier rule fails to match |
| `Routes.EntryMatchExact` | addrservice/app.py:19 | the entry pattern accepts exactly `/addressbook/` + a non-empty `[a-zA-Z0-9-]` run + an optional `/`, and captures that run as `id` (both directions) |
| `Routes.AppRulesDisjoint` | addrservice/app.py:173-177 | no path matches two of the four patterns, so rule order never changes the route |
| `Routes.RouteCases` | addrservice/app.py:171-183 | where each path goes: `/healthz[/]`, `/readiness[/]`, `/addressbook[/]`, the entry pattern with its captured id, else the default handler |
| `Routes.LocationRoundTrip` | addrservice/app.py:19-20 | `'/addressbook/' + id` routes to the entry handler capturing that same id exactly when `id` matches `[a-zA-Z0-9-]+`; with a trailing `/` it still does |
| `Responses.FinishBody` | addrservice/app.py:114-116 | `finish` succeeds exactly for `None`, a string or a dict; `None` writes nothing and a dict is written as itself; every other value raises a `TypeError`, which is neither a `KeyError` nor a `ValueError` |
| `Responses.TraceField` | addrservice/app.py:56-59 | `trace` is present iff `serve_traceback` is set and exception information was supplied, and it is that information |
| `Responses.EnvelopeKeys` | addrservice/app.py:49-59 | the envelope's keys are exactly `method`, `uri`, `code`, `message`, plus `trace` iff a trace is given |
| `Responses.ErrorResponseEnvelope` | addrservice/app.py:47-61 | an error response has the JSON content type, and its envelope reports the request method, the request path, code = the status and message = the reason |
| `Responses.LogSeverityBands` | addrservice/app.py:156-161 | status below 400 is info, 400-499 is warning, 500 and above is error, each band an iff, and severity is monotone in the status |
| `Endpoints.PostOutcomes` | addrservice/app.py:97-108 | POST yields four results: a decode error or `TypeError` gives 400 "Invalid JSON body"; another `ValueError`, including the one `set_header` raises for an unsafe `Location`, gives 400 with its message; any other exception escapes; success gives 201 with `Location` and an empty body; only a refused `Location` fails after 201 was set |
| `Endpoints.PutOutcomes` | addrservice/app.py:120-131 | PUT checks in order: decode error or `TypeError` (400 "Invalid JSON body"), then `KeyError` (404 with the message), then `ValueError` (400 with the message), then escape; success gives 204 with an empty body |
| `Endpoints.GetDeleteOutcomes` | addrservice/app.py:112-139 | GET and DELETE give 404 with the message on a `KeyError` from the collaborator and let other exceptions escape; otherwise GET gives 200 with what `finish` writes for the entry, and an entry `finish` refuses raises a `TypeError` after 200 was set, which escapes; DELETE gives 204 with an empty body |
| `Endpoints.LocationHeaderSafe` | addrservice/app.py:101-103 | the `Location` of a created entry is an acceptable header value exactly when the id is, and every `[a-zA-Z0-9-]+` id is |
| `Endpoints.DefaultHandlerFails` | addrservice/app.py:64-72 | for any supported method, the default handler's execution fails with 404 "Unknown Endpoint" |
| `Endpoints.DecodeErrorClauseOrder` | addrservice/app.py:105-108 | a `JSONDecodeError` is a `ValueError`, yet the first clause wins ("Invalid JSON body"); a `UnicodeDecodeError` reaches the `ValueError` clause and reports its own message |
| `Endpoints.CatchesTwo` | addrservice/app.py:105 | `except (A, B)` catches exactly the instances of `A` and of `B`, subclasses included |
| `Endpoints.PostStatuses` | addrservice/app.py:97-108 | POST finishes only with 201 and fails only with 400 or, for an escaping exception, 500 |
| `Endpoints.EntryStatuses` | addrservice/app.py:112-139 | PUT finishes with 204 and fails with 400, 404 or 500; GET finishes with 200 and DELETE with 204, and both fail only with 404 or 500 |
| `Endpoints.ExecuteStatuses` | addrservice/app.py:64-139 | on any route, a failing handler ends with 400, 404, 405 or 500; a finishing one answers 200, 201, 204 or 503, sets no content type of its own, and answers 503 only in the readiness handler with the snapshot as body |
| `Endpoints.ReadinessStatusRule` | addrservice/app.py:84-88 | readiness gives 200 iff `info['ready']` is truthy and 503 iff not, with `info` as the body; without `ready` a `KeyError` escapes |
| `Handlers.RequestHandler.WriteError` | addrservice/app.py:47-61 | sets the JSON content type and finishes with the envelope of method, path, code and the current reason, with `trace` only under `serve_traceback` with `exc_info` |
| `Handlers.RequestHandler.InitializeDefault` | addrservice/app.py:65-67 | the configured status and reason become the handler's own |
| `Handlers.RequestHandler.RunDefault` | addrservice/app.py:64-72 | after `initialize(code, message)` and `prepare`, the request fails with exactly `HTTPError(code, message)`, and the handler holds that status and reason with nothing else changed |
| `Handlers.RequestHandler.SetHeader` | addrservice/app.py:103 | a value with no control character is stored under the name; otherwise a `ValueError` is raised and the headers stay as they were |
| `Handlers.RequestHandler.Finish` | addrservice/app.py:116 | the body becomes what `write` makes of the chunk and the handler is finished; a chunk `write` refuses raises a `TypeError` and nothing changes |
| `Handlers.RequestHandler.GetLiveness` | addrservice/app.py:76-80 | the new state is 200 with body `{uptime: <collaborator's uptime>}` |
| `Handlers.RequestHandler.GetReadiness` | addrservice/app.py:84-88 | the new state and failure are those of the readiness rule |
| `Handlers.RequestHandler.GetAddressBook` | addrservice/app.py:92-95 | the new state is 200 with what `finish` writes for the collection; the collaborator's exception escapes with the state unchanged, and a collection `finish` refuses escapes with status 200 already set |
| `Handlers.RequestHandler.PostAddressBook` | addrservice/app.py:97-108 | the new state and failure are those of POST's decision table; the handler finishes iff nothing failed |
| `Handlers.RequestHandler.GetEntry` | addrservice/app.py:112-118 | the new state and failure are those of entry GET's decision table |
| `Handlers.RequestHandler.PutEntry` | addrservice/app.py:120-131 | the new state and failure are those of PUT's decision table |
| `Handlers.RequestHandler.DeleteEntry` | addrservice/app.py:133-139 | the new state and failure are those of DELETE's decision table |
| `Handlers.RequestHandler.RunVerb` | addrservice/app.py:91-139 | runs the verb method the request names on the matched handler class, with the captured id; a verb the class lacks fails with 405; the handler finishes iff nothing failed |
| `Handlers.ServeRequest` | addrservice/app.py:164-184 | running one request through the application's handlers gives exactly the response `Endpoints.Serve` specifies |
| `Properties.UnknownEndpointResponse` | addrservice/app.py:64-72 | an unmatched path with a supported method gives 404 "Unknown Endpoint" in the error envelope, logged as a warning |
| `Properties.NonexistentIsUnknown` | addrservice/app.py:182-183 | `GET /nonexistent` gives 404 with reason "Unknown Endpoint" |
| `Properties.UnsupportedMethodResponse` | addrservice/app.py:170-184 | a method outside the supported set gives 405 in the error envelope on every path |
| `Properties.PostThenGetRoundTrip` | addrservice/app.py:97-118 | if the collaborator gives a created entry a well-formed id and then returns that entry for it, POST gives 201 with an empty body and a `Location`; that `Location` routes to the entry handler with the same id; GET on it gives 200 with the entry when it is an object, 200 with what `finish` writes for `null` or a string, and 500 for any other value |
| `Properties.PostCreatesLocation` | addrservice/app.py:97-104 | POST gives 201, an empty body and exactly the header `Location: /addressbook/<id>` whenever the collaborator returns an id without control characters |
| `Properties.UnsafeLocationResponse` | addrservice/app.py:101-108 | an id with a control character makes `set_header` raise; POST answers 400 with that `ValueError`'s message in the error envelope |
| `Properties.EntryIdPassesThrough` | addrservice/app.py:112-118 | the id in an entry path reaches `get_address` verbatim: 200 with what `finish` writes for the returned entry, or 500 when `finish` refuses it; 404 for a `KeyError`, with its message as the reason or "Not Found" when the message is empty; 500 for any other exception |
| `Properties.EntryPutPassesThrough` | addrservice/app.py:120-131 | the id in an entry path reaches `put_address` verbatim with the decoded body: 204 exactly when that call returns; 404 for a `KeyError` from it, with its message or "Not Found" as the reason |
| `Properties.EntryDeletePassesThrough` | addrservice/app.py:133-139 | the id in an entry path reaches `delete_address` verbatim: 204 with an empty body when it returns, 404 for a `KeyError` with its message or "Not Found" as the reason, 500 for any other exception |
| `Properties.LivenessAndCollectionResponses` | addrservice/app.py:76-95 | GET `/healthz[/]` always gives 200 with `{uptime: <collaborator's uptime>}`; GET `/addressbook[/]` gives 200 with what `finish` writes for the collection, or 500 when the collaborator raised or `finish` refuses the value |
| `Properties.ReadinessResponse` | addrservice/app.py:84-88 | GET on `/readiness[/]` gives 200 iff `ready` is truthy and 503 iff not, and the body is the snapshot |
| `Properties.ResponseShapes` | addrservice/app.py:47-139 | every status is one of 200, 201, 204, 400, 404, 405, 500 or 503; a response is an error envelope iff its status is 400, 404, 405 or 500; a 503 comes only from the readiness route, with the snapshot as body |
| `Properties.ServedSeverity` | addrservice/app.py:156-161 | client errors are logged as warnings; error severity applies exactly to 500 and 503; info applies exactly to 200, 201 and 204 |

## Left out

- Tornado internals are not modelled: its default headers (`Server`, `Date`, `Content-Type: text/html`), the `Content-Type` it sets when a dict is written, `compress_response`, the byte encoding of what `finish` writes, and header stripping on 204. `headers` holds only the headers this file sets. Which body `finish` writes, and its refusals, are modelled.
- Responses.FinishBody: for a list, Tornado's `TypeError` message adds a sentence about lists; the model carries only the common message. No response shows it, because an escaping exception answers with the standard 500 phrase.
- Responses.UnsafeHeaderError: the message is `str()` of the exception's two arguments, and Python's `repr` escapes the value's control characters inside it. The model puts the value in quotes without escaping it.
- Awaiting the collaborator is not modelled. Each call is the outcome it produces, and the collaborator's implementation is not part of this model.
- `json.loads` and UTF-8 decoding are not modelled. A request carries their combined outcome. JSON floats are not among the modelled values.
- `traceback.format_exception` is not modelled. The formatted trace is an uninterpreted string parameter of `Serve`.
- `log_function`'s request time, its message text and the logger calls are I/O and are not modelled. So are the logger fallback, `exc_info=True`, the debug line in `BaseRequestHandler.prepare`, and `on_finish`. Only the severity choice is modelled.
- `initialize`'s storage of the collaborator, configuration and logger is modelled as the handler's constant fields. The configuration mapping is never read by this layer.
- Tornado percent-decodes captured path arguments. This is the identity on `[a-zA-Z0-9-]`, so the captured id is passed unchanged.
- Python's `$` also matches before a final newline. A request path cannot contain a raw newline, so patterns are modelled as exact whole-path matches.
- `str(e)` of an exception is carried as its text. For a `KeyError` this is the quoted key.
