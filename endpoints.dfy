/** What each request handler does with the request and with what its
    collaborator returns or raises, as decision tables, and the whole
    request from routing to the finished response. */
module Endpoints {
  import opened FirstMatch
  import opened Python
  import opened Routes
  import opened Responses

  /** The storage collaborator, reduced to what each of its calls returns
      or raises. Calls that take arguments are functions of them, so a
      handler's result shows which arguments it passed. */
  datatype Service = Service(
    uptimeMillis: int,
    status: Outcome<map<string, Json>>,
    allAddresses: Outcome<Json>,
    postAddress: Json -> Outcome<string>,
    getAddress: string -> Outcome<Json>,
    putAddress: (string, Json) -> Outcome<()>,
    deleteAddress: string -> Outcome<()>)

  /** A request: its method, its path (without the query string), and what
      `json.loads(self.request.body.decode('utf-8'))` gives for its body. */
  datatype Request = Request(verb: string, path: string, decodedBody: Outcome<Json>)

  /** How a handler method ends: it finished with a status, headers and a
      body, or it failed, possibly after it had already set a status. */
  datatype Reply =
    | Completed(status: int, headers: map<string, string>, body: Body)
    | Failed(failure: Failure, statusSet: Option<int>)

  /** The `HTTPError` an `except` clause raises: a fixed reason, or the
      caught exception's `str(e)`. */
  datatype Raise = FixedReason(code: int, reason: string) | MessageReason(code: int)

  datatype ExceptClause = ExceptClause(classes: set<PyClass>, raise: Raise)

  /** The `try` statement's handling of an exception raised in its body:
      the first clause that catches it raises its `HTTPError`; an exception
      no clause catches escapes the handler. */
  function HandleException(clauses: seq<ExceptClause>, e: PyException): (f: Failure)
  {
    var k := FirstIndex(clauses, (cl: ExceptClause) => Catches(cl.classes, e));
    if k < |clauses| then
      match clauses[k].raise
      case FixedReason(code, reason) => HttpError(code, Some(reason))
      case MessageReason(code) => HttpError(code, Some(e.text))
    else Uncaught(e)
  }

  /** A `try` statement fails with one of its clauses' codes, or with 500
      when the exception escapes. */
  lemma HandleExceptionStatus(clauses: seq<ExceptClause>, e: PyException, codes: set<int>)
    requires forall k :: 0 <= k < |clauses| ==> clauses[k].raise.code in codes
    ensures ErrorStatus(HandleException(clauses, e)) in codes + {500}
  {
  }

  const InvalidJsonBody := "Invalid JSON body"

  /** `AddressBookRequestHandler.post`'s two `except` clauses. */
  const PostClauses := [
    ExceptClause({JSONDecodeError, TypeError}, FixedReason(400, InvalidJsonBody)),
    ExceptClause({ValueError}, MessageReason(400))
  ]

  /** `AddressBookEntryRequestHandler.put`'s three `except` clauses. */
  const PutClauses := [
    ExceptClause({JSONDecodeError, TypeError}, FixedReason(400, InvalidJsonBody)),
    ExceptClause({KeyError}, MessageReason(404)),
    ExceptClause({ValueError}, MessageReason(400))
  ]

  /** The single `except KeyError` clause of `get` and `delete`. */
  const KeyClauses := [ExceptClause({KeyError}, MessageReason(404))]

  function LivenessGet(svc: Service): (r: Reply)
  {
    Completed(200, map[], Payload(JObject(map["uptime" := JInt(svc.uptimeMillis)])))
  }

  function ReadinessGet(svc: Service): (r: Reply)
  {
    match svc.status
    case Raised(e) => Failed(Uncaught(e), None)
    case Returned(info) =>
      if "ready" !in info then Failed(Uncaught(PyException(KeyError, "'ready'")), None)
      else Completed(if Truthy(info["ready"]) then 200 else 503, map[], Payload(JObject(info)))
  }

  function AddressBookGet(svc: Service): (r: Reply)
  {
    match svc.allAddresses
    case Raised(e) => Failed(Uncaught(e), None)
    case Returned(all) =>
      match FinishBody(all)
      case Raised(e) => Failed(Uncaught(e), Some(200))
      case Returned(body) => Completed(200, map[], body)
  }

  function AddressBookPost(svc: Service, decoded: Outcome<Json>): (r: Reply)
  {
    match decoded
    case Raised(e) => Failed(HandleException(PostClauses, e), None)
    case Returned(addr) =>
      match svc.postAddress(addr)
      case Raised(e) => Failed(HandleException(PostClauses, e), None)
      case Returned(id) =>
        var uri := EntryUri(id);
        if SafeHeaderValue(uri) then Completed(201, map["Location" := uri], Empty)
        else Failed(HandleException(PostClauses, UnsafeHeaderError(uri)), Some(201))
  }

  function EntryGet(svc: Service, id: string): (r: Reply)
  {
    match svc.getAddress(id)
    case Raised(e) => Failed(HandleException(KeyClauses, e), None)
    case Returned(addr) =>
      match FinishBody(addr)
      case Raised(e) => Failed(HandleException(KeyClauses, e), Some(200))
      case Returned(body) => Completed(200, map[], body)
  }

  function EntryPut(svc: Service, id: string, decoded: Outcome<Json>): (r: Reply)
  {
    match decoded
    case Raised(e) => Failed(HandleException(PutClauses, e), None)
    case Returned(addr) =>
      match svc.putAddress(id, addr)
      case Raised(e) => Failed(HandleException(PutClauses, e), None)
      case Returned(_) => Completed(204, map[], Empty)
  }

  function EntryDelete(svc: Service, id: string): (r: Reply)
  {
    match svc.deleteAddress(id)
    case Raised(e) => Failed(HandleException(KeyClauses, e), None)
    case Returned(_) => Completed(204, map[], Empty)
  }

  /** The handler's state after its method: a completed reply sets the
      status (with its standard reason), adds its headers and sets the
      body; a failed one keeps the state, except for a status it set
      before the exception. */
  function Apply(before: Response, reply: Reply): (after: Response)
  {
    match reply
    case Completed(status, headers, body) => Response(status, ReasonPhrase(status), before.headers + headers, body)
    case Failed(_, statusSet) =>
      if statusSet.Some? then before.(status := statusSet.value, reason := ReasonPhrase(statusSet.value)) else before
  }

  function FailureOf(reply: Reply): (f: Option<Failure>)
  {
    match reply
    case Completed(_, _, _) => None
    case Failed(f, _) => Some(f)
  }

  /** The framework's `SUPPORTED_METHODS`. */
  const SupportedMethods := {"GET", "HEAD", "POST", "DELETE", "PATCH", "PUT", "OPTIONS"}

  /** `default_handler_args` of the application. */
  const DefaultStatus := 404
  const UnknownEndpoint := "Unknown Endpoint"

  /** The handler's state once `initialize` has run: the default handler
      sets its configured status and reason, the others set nothing. */
  function Initialized(target: Target): (init: Response)
  {
    if target.Unmatched? then Response(DefaultStatus, UnknownEndpoint, map[], Empty) else Initial
  }

  /** The verb method a matched handler runs; a verb its class does not
      define raises `HTTPError(405)`. */
  function RunVerb(svc: Service, handler: Handler, captures: Captures, req: Request): (r: Reply)
  {
    var notAllowed := Failed(HttpError(405, None), None);
    match handler
    case LivenessHandler => if req.verb == "GET" then LivenessGet(svc) else notAllowed
    case ReadinessHandler => if req.verb == "GET" then ReadinessGet(svc) else notAllowed
    case AddressBookHandler =>
      if req.verb == "GET" then AddressBookGet(svc)
      else if req.verb == "POST" then AddressBookPost(svc, req.decodedBody)
      else notAllowed
    case AddressBookEntryHandler =>
      var id := if captures.IdGroup? then captures.id else "";
      if req.verb == "GET" then EntryGet(svc, id)
      else if req.verb == "PUT" then EntryPut(svc, id, req.decodedBody)
      else if req.verb == "DELETE" then EntryDelete(svc, id)
      else notAllowed
  }

  /** How the handler's execution ends: an unsupported method is refused
      before `prepare`; the default handler's `prepare` raises the status
      and reason it was initialised with; otherwise the verb method runs. */
  function Execute(svc: Service, target: Target, req: Request): (r: Reply)
  {
    if req.verb !in SupportedMethods then Failed(HttpError(405, None), None)
    else match target
      case Unmatched =>
        var init := Initialized(target);
        Failed(HttpError(init.status, Some(init.reason)), None)
      case Matched(handler, captures) => RunVerb(svc, handler, captures, req)
  }

  /** The response to a request: route it, run the handler, and on a
      failure send the error envelope, with `trace` the formatted
      traceback of the exception and `debug` the `serve_traceback`
      setting. */
  function Serve(svc: Service, debug: bool, req: Request, trace: string): (resp: Response)
  {
    var target := Route(AppRules, req.path);
    match Execute(svc, target, req)
    case Failed(f, _) => ErrorResponse(req.verb, req.path, f, debug, Some(trace))
    case Completed(status, headers, body) => Apply(Initialized(target), Completed(status, headers, body))
  }

  /** `except (A, B)` catches exactly the instances of `A` and of `B`. */
  lemma CatchesTwo(a: PyClass, b: PyClass, e: PyException)
    ensures Catches({a, b}, e) <==> IsInstance(e, a) || IsInstance(e, b)
  {
  }

  /** `except A` catches exactly the instances of `A`. */
  lemma CatchesOne(a: PyClass, e: PyException)
    ensures Catches({a}, e) <==> IsInstance(e, a)
  {
  }

  /** What `set_header` raises for a value, if anything. */
  function HeaderRaised(value: string): (raised: Option<PyException>)
  {
    if SafeHeaderValue(value) then None else Some(UnsafeHeaderError(value))
  }

  /** The `Location` of a created entry is refused exactly when the
      identifier holds a control character, which an identifier of the
      form `[a-zA-Z0-9-]+` never does. */
  lemma LocationHeaderSafe(id: string)
    ensures SafeHeaderValue(EntryUri(id)) <==> SafeHeaderValue(id)
    ensures IsId(id) ==> SafeHeaderValue(id)
  {
    var uri := EntryUri(id);
    assert forall i :: 0 <= i < |id| ==> uri[13 + i] == id[i];
    if SafeHeaderValue(id) {
      forall i | 0 <= i < |uri|
        ensures uri[i] as int >= 0x20
      {
        if i >= 13 {
          assert uri[i] == id[i - 13];
        }
      }
    }
  }

  /** The exception a handler's `try` body raises, if any: decoding the
      body, then the collaborator call, then the step that uses what the
      call returned. */
  function RaisedInTry<T>(decoded: Outcome<Json>, call: Json -> Outcome<T>, next: T -> Option<PyException>): (raised: Option<PyException>)
  {
    if decoded.Raised? then Some(decoded.exc)
    else if call(decoded.value).Raised? then Some(call(decoded.value).exc)
    else next(call(decoded.value).value)
  }

  /** POST's results, with its `except` clauses read top to bottom: an
      undecodable body or a `TypeError` gives 400 "Invalid JSON body";
      any other `ValueError`, among them the one `set_header` raises for
      an unsafe `Location`, gives 400 with its message; anything else
      escapes; with nothing raised, 201 with the new entry's `Location`
      and an empty body. Only a refused `Location` fails after the
      status 201 was set. */
  lemma PostOutcomes(svc: Service, decoded: Outcome<Json>)
    ensures var raised := RaisedInTry(decoded, svc.postAddress, (id: string) => HeaderRaised(EntryUri(id)));
      var r := AddressBookPost(svc, decoded);
      && (raised.None? ==>
            r == Completed(201, map["Location" := EntryUri(svc.postAddress(decoded.value).value)], Empty))
      && (raised.Some? && (IsInstance(raised.value, JSONDecodeError) || IsInstance(raised.value, TypeError)) ==>
            FailureOf(r) == Some(HttpError(400, Some(InvalidJsonBody))))
      && (raised.Some? && !IsInstance(raised.value, JSONDecodeError) && !IsInstance(raised.value, TypeError)
            && IsInstance(raised.value, ValueError) ==>
            FailureOf(r) == Some(HttpError(400, Some(raised.value.text))))
      && (raised.Some? && !IsInstance(raised.value, JSONDecodeError) && !IsInstance(raised.value, TypeError)
            && !IsInstance(raised.value, ValueError) ==>
            FailureOf(r) == Some(Uncaught(raised.value)))
      && (r.Failed? ==>
            r.statusSet == if decoded.Returned? && svc.postAddress(decoded.value).Returned? then Some(201) else None)
  {
    var raised := RaisedInTry(decoded, svc.postAddress, (id: string) => HeaderRaised(EntryUri(id)));
    if raised.Some? {
      var e := raised.value;
      CatchesTwo(JSONDecodeError, TypeError, e);
      CatchesOne(ValueError, e);
      assert PostClauses[0].classes == {JSONDecodeError, TypeError};
      assert PostClauses[1].classes == {ValueError};
    }
  }

  /** PUT checks, in this order: an undecodable body or a `TypeError`
      (400 "Invalid JSON body"), a `KeyError` (404 with its message), any
      other `ValueError` (400 with its message); anything else escapes;
      with nothing raised, 204 with an empty body. */
  lemma PutOutcomes(svc: Service, id: string, decoded: Outcome<Json>)
    ensures var raised := RaisedInTry(decoded, (addr: Json) => svc.putAddress(id, addr), (_: ()) => None);
      var r := EntryPut(svc, id, decoded);
      && (raised.None? ==> r == Completed(204, map[], Empty))
      && (raised.Some? && (IsInstance(raised.value, JSONDecodeError) || IsInstance(raised.value, TypeError)) ==>
            r == Failed(HttpError(400, Some(InvalidJsonBody)), None))
      && (raised.Some? && !IsInstance(raised.value, JSONDecodeError) && !IsInstance(raised.value, TypeError)
            && IsInstance(raised.value, KeyError) ==>
            r == Failed(HttpError(404, Some(raised.value.text)), None))
      && (raised.Some? && !IsInstance(raised.value, JSONDecodeError) && !IsInstance(raised.value, TypeError)
            && !IsInstance(raised.value, KeyError) && IsInstance(raised.value, ValueError) ==>
            r == Failed(HttpError(400, Some(raised.value.text)), None))
      && (raised.Some? && !IsInstance(raised.value, JSONDecodeError) && !IsInstance(raised.value, TypeError)
            && !IsInstance(raised.value, KeyError) && !IsInstance(raised.value, ValueError) ==>
            r == Failed(Uncaught(raised.value), None))
  {
    var raised := RaisedInTry(decoded, (addr: Json) => svc.putAddress(id, addr), (_: ()) => None);
    if raised.Some? {
      var e := raised.value;
      CatchesTwo(JSONDecodeError, TypeError, e);
      CatchesOne(KeyError, e);
      CatchesOne(ValueError, e);
      assert PutClauses[0].classes == {JSONDecodeError, TypeError};
      assert PutClauses[1].classes == {KeyError};
      assert PutClauses[2].classes == {ValueError};
    }
  }

  /** The reply of a handler whose only clause is `except KeyError`, for
      an exception raised after the method set `statusSet`: a `KeyError`
      gives 404 with its message, any other exception escapes. */
  function KeyErrorReply(e: PyException, statusSet: Option<int>): (r: Reply)
  {
    if IsInstance(e, KeyError) then Failed(HttpError(404, Some(e.text)), statusSet)
    else Failed(Uncaught(e), statusSet)
  }

  /** GET and DELETE on an entry pass the identifier to the collaborator
      unchanged; a `KeyError` from the collaborator gives 404 with its
      message, any other exception escapes. Otherwise GET answers 200 with
      what `finish` writes for the entry, and a value `finish` refuses
      raises a `TypeError` after the status 200 was set, which the
      `KeyError` clause lets escape; DELETE answers 204 with an empty body. */
  lemma GetDeleteOutcomes(svc: Service, id: string)
    ensures EntryGet(svc, id) ==
      match svc.getAddress(id)
      case Raised(e) => KeyErrorReply(e, None)
      case Returned(addr) =>
        if FinishBody(addr).Returned? then Completed(200, map[], FinishBody(addr).value)
        else Failed(Uncaught(FinishBody(addr).exc), Some(200))
    ensures EntryDelete(svc, id) ==
      match svc.deleteAddress(id)
      case Raised(e) => KeyErrorReply(e, None)
      case Returned(_) => Completed(204, map[], Empty)
  {
    if svc.getAddress(id).Returned? && FinishBody(svc.getAddress(id).value).Raised? {
      CatchesOne(KeyError, FinishBody(svc.getAddress(id).value).exc);
    }
  }

  /** A `JSONDecodeError` is also a `ValueError`, yet the first clause
      handles it: POST and PUT answer "Invalid JSON body", never the
      decoder's own message. A `UnicodeDecodeError` from decoding the body
      is a `ValueError` too but is not named by the first clause, so it
      reaches the `ValueError` clause and its message becomes the reason. */
  lemma DecodeErrorClauseOrder(svc: Service, id: string, e: PyException)
    ensures e.cls == JSONDecodeError ==>
      && IsInstance(e, ValueError)
      && AddressBookPost(svc, Raised(e)) == Failed(HttpError(400, Some(InvalidJsonBody)), None)
      && EntryPut(svc, id, Raised(e)) == Failed(HttpError(400, Some(InvalidJsonBody)), None)
    ensures e.cls == UnicodeDecodeError ==>
      && AddressBookPost(svc, Raised(e)) == Failed(HttpError(400, Some(e.text)), None)
      && EntryPut(svc, id, Raised(e)) == Failed(HttpError(400, Some(e.text)), None)
  {
    PostOutcomes(svc, Raised(e));
    PutOutcomes(svc, id, Raised(e));
  }

  /** Readiness answers 200 exactly when the snapshot's `ready` is truthy
      and 503 otherwise, with the snapshot itself as the body; a snapshot
      without `ready` raises `KeyError`, which escapes the handler. */
  lemma ReadinessStatusRule(svc: Service)
    requires svc.status.Returned?
    ensures var info := svc.status.value;
      && ("ready" in info ==>
            ReadinessGet(svc).Completed?
            && (ReadinessGet(svc).status == 200 <==> Truthy(info["ready"]))
            && (ReadinessGet(svc).status == 503 <==> !Truthy(info["ready"]))
            && ReadinessGet(svc).body == Payload(JObject(info)))
      && ("ready" !in info ==>
            ReadinessGet(svc) == Failed(Uncaught(PyException(KeyError, "'ready'")), None))
  {
  }

  /** The statuses POST can end with: 201, a clause's 400, or 500 when an
      exception escapes. */
  lemma PostStatuses(svc: Service, decoded: Outcome<Json>)
    ensures var r := AddressBookPost(svc, decoded);
      (r.Completed? ==> r.status == 201) && (r.Failed? ==> ErrorStatus(r.failure) in {400, 500})
  {
    var raised := RaisedInTry(decoded, svc.postAddress, (id: string) => HeaderRaised(EntryUri(id)));
    if raised.Some? { HandleExceptionStatus(PostClauses, raised.value, {400}); }
  }

  /** The statuses the entry methods can end with: their success status,
      a clause's 400 or 404, or 500 when an exception escapes. */
  lemma EntryStatuses(svc: Service, id: string, decoded: Outcome<Json>)
    ensures var r := EntryPut(svc, id, decoded);
      (r.Completed? ==> r.status == 204) && (r.Failed? ==> ErrorStatus(r.failure) in {400, 404, 500})
    ensures var r := EntryGet(svc, id);
      (r.Completed? ==> r.status == 200) && (r.Failed? ==> ErrorStatus(r.failure) in {404, 500})
    ensures var r := EntryDelete(svc, id);
      (r.Completed? ==> r.status == 204) && (r.Failed? ==> ErrorStatus(r.failure) in {404, 500})
  {
    var raised := RaisedInTry(decoded, (addr: Json) => svc.putAddress(id, addr), (_: ()) => None);
    if raised.Some? { HandleExceptionStatus(PutClauses, raised.value, {400, 404}); }
    var got := svc.getAddress(id);
    if got.Raised? { HandleExceptionStatus(KeyClauses, got.exc, {404}); }
    else if FinishBody(got.value).Raised? { HandleExceptionStatus(KeyClauses, FinishBody(got.value).exc, {404}); }
    if svc.deleteAddress(id).Raised? { HandleExceptionStatus(KeyClauses, svc.deleteAddress(id).exc, {404}); }
  }

  /** Whatever the route: a failing execution ends with 400, 404, 405 or
      500; a finishing one answers 200, 201, 204 or 503, sets no
      `Content-Type` of its own, and answers 503 only in the readiness
      handler, with the collaborator's snapshot as the body. */
  lemma ExecuteStatuses(svc: Service, target: Target, req: Request)
    ensures var reply := Execute(svc, target, req);
      && (reply.Failed? ==> ErrorStatus(reply.failure) in {400, 404, 405, 500})
      && (reply.Completed? ==>
            && reply.status in {200, 201, 204, 503}
            && ContentType !in reply.headers
            && (reply.status == 503 ==>
                  target.Matched? && target.handler == ReadinessHandler && svc.status.Returned?
                  && reply.body == Payload(JObject(svc.status.value))))
  {
    if req.verb in SupportedMethods && target.Matched? {
      var id := if target.captures.IdGroup? then target.captures.id else "";
      match target.handler
      case LivenessHandler =>
      case ReadinessHandler =>
      case AddressBookHandler =>
        if req.verb == "POST" { PostStatuses(svc, req.decodedBody); }
      case AddressBookEntryHandler =>
        EntryStatuses(svc, id, req.decodedBody);
    }
  }

  /** The default handler, for any supported method, fails with the
      status and reason it was configured with: 404 "Unknown Endpoint". */
  lemma DefaultHandlerFails(svc: Service, req: Request)
    requires req.verb in SupportedMethods
    ensures Execute(svc, Unmatched, req) == Failed(HttpError(404, Some("Unknown Endpoint")), None)
  {
  }
}
