/** Properties of whole requests: what the application answers for an
    unknown path, for a created entry fetched back through its
    `Location`, for readiness, and the shape of every error response. */
module Properties {
  import opened Python
  import opened Routes
  import opened Responses
  import opened Endpoints

  /** The response is the error envelope of the request: JSON content type
      and a body reporting the request's method and path and the
      response's own status and reason, with the traceback in debug mode. */
  predicate IsErrorEnvelope(r: Response, req: Request, debug: bool, trace: string)
  {
    && r.headers == map[ContentType := JsonContentType]
    && r.body == Payload(Envelope(req.verb, req.path, r.status, r.reason, if debug then Some(trace) else None))
  }

  /** A path no rule matches gets 404 "Unknown Endpoint" in the envelope,
      logged as a warning; a method outside the supported set gets 405 on
      any path. */
  lemma UnknownEndpointResponse(svc: Service, debug: bool, req: Request, trace: string)
    requires Route(AppRules, req.path) == Unmatched
    ensures var r := Serve(svc, debug, req, trace);
      req.verb in SupportedMethods ==>
        && r.status == 404 && r.reason == UnknownEndpoint
        && IsErrorEnvelope(r, req, debug, trace)
        && LogSeverity(r.status) == Warning
  {
  }

  lemma UnsupportedMethodResponse(svc: Service, debug: bool, req: Request, trace: string)
    requires req.verb !in SupportedMethods
    ensures var r := Serve(svc, debug, req, trace);
      r.status == 405 && r.reason == "Method Not Allowed" && IsErrorEnvelope(r, req, debug, trace)
  {
  }

  /** An undeclared path such as `/nonexistent` is unknown. */
  lemma NonexistentIsUnknown(svc: Service, debug: bool, decoded: Outcome<Json>, trace: string)
    ensures Serve(svc, debug, Request("GET", "/nonexistent", decoded), trace).status == 404
    ensures Serve(svc, debug, Request("GET", "/nonexistent", decoded), trace).reason == UnknownEndpoint
  {
  }

  /** Creating an entry and fetching it back: when the collaborator gives
      the posted entry a well-formed identifier and then returns it for
      that identifier, POST answers 201 with an empty body and a
      `Location` whose GET reaches the entry handler with the same
      identifier. That GET answers 200 with what `finish` writes for the
      entry (the entry itself as JSON for an object), or 500 when `finish`
      refuses the value. */
  lemma PostThenGetRoundTrip(svc: Service, debug: bool, entry: Json, id: string, path: string, trace: string)
    requires path == "/addressbook" || path == "/addressbook/"
    requires svc.postAddress(entry) == Returned(id) && IsId(id)
    requires svc.getAddress(id) == Returned(entry)
    ensures var posted := Serve(svc, debug, Request("POST", path, Returned(entry)), trace);
      && posted.status == 201 && posted.body == Empty
      && "Location" in posted.headers
      && var location := posted.headers["Location"];
         && Route(AppRules, location) == Matched(AddressBookEntryHandler, IdGroup(id))
         && var fetched := Serve(svc, debug, Request("GET", location, Returned(JNull)), trace);
            && (FinishBody(entry).Returned? ==> fetched.status == 200 && fetched.body == FinishBody(entry).value)
            && (FinishBody(entry).Raised? ==> fetched.status == 500)
            && (entry.JObject? ==> fetched.status == 200 && fetched.body == Payload(entry))
  {
    LocationHeaderSafe(id);
    PostCreatesLocation(svc, debug, entry, id, path, trace);
    LocationRoundTrip(id);
    assert EntryPath(id, false) == EntryUri(id);
    EntryIdPassesThrough(svc, debug, id, false, trace);
  }

  /** POST answers 201 with an empty body and `Location: /addressbook/<id>`
      whenever the collaborator returns an identifier the framework
      accepts as a header value. */
  lemma PostCreatesLocation(svc: Service, debug: bool, entry: Json, id: string, path: string, trace: string)
    requires path == "/addressbook" || path == "/addressbook/"
    requires svc.postAddress(entry) == Returned(id) && SafeHeaderValue(id)
    ensures var posted := Serve(svc, debug, Request("POST", path, Returned(entry)), trace);
      && posted.status == 201 && posted.body == Empty
      && posted.headers == map["Location" := EntryUri(id)]
  {
    var req := Request("POST", path, Returned(entry));
    var location := map["Location" := EntryUri(id)];
    RouteCases(path);
    LocationHeaderSafe(id);
    assert AddressBookPost(svc, Returned(entry)) == Completed(201, location, Empty);
    assert Execute(svc, Route(AppRules, path), req) == Completed(201, location, Empty);
    assert Initial.headers + location == location;
  }

  /** A created entry whose identifier holds a control character cannot be
      given its `Location`: `set_header` raises a `ValueError`, which the
      POST handler's `ValueError` clause turns into 400 with that
      exception's message, in the error envelope. */
  lemma UnsafeLocationResponse(svc: Service, debug: bool, entry: Json, id: string, path: string, trace: string)
    requires path == "/addressbook" || path == "/addressbook/"
    requires svc.postAddress(entry) == Returned(id) && !SafeHeaderValue(id)
    ensures var r := Serve(svc, debug, Request("POST", path, Returned(entry)), trace);
      && r.status == 400
      && r.reason == UnsafeHeaderError(EntryUri(id)).text
      && IsErrorEnvelope(r, Request("POST", path, Returned(entry)), debug, trace)
  {
    var req := Request("POST", path, Returned(entry));
    RouteCases(path);
    LocationHeaderSafe(id);
    PostOutcomes(svc, Returned(entry));
    var e := UnsafeHeaderError(EntryUri(id));
    assert Execute(svc, Route(AppRules, path), req) == Failed(HttpError(400, Some(e.text)), Some(201));
    assert ErrorReason(HttpError(400, Some(e.text))) == e.text;
  }

  /** The entry path for `id`, with or without its trailing `/`. */
  function EntryPath(id: string, slash: bool): (path: string)
    ensures IsId(id) ==> Route(AppRules, path) == Matched(AddressBookEntryHandler, IdGroup(id))
  {
    LocationRoundTrip(id);
    if slash then EntryUri(id) + "/" else EntryUri(id)
  }

  /** What the entry handler's verb methods end with. */
  function EntryReply(svc: Service, verb: string, id: string, decoded: Outcome<Json>): (r: Reply)
    requires verb in {"GET", "PUT", "DELETE"}
  {
    if verb == "GET" then EntryGet(svc, id)
    else if verb == "PUT" then EntryPut(svc, id, decoded)
    else EntryDelete(svc, id)
  }

  /** A GET, PUT or DELETE routed to the entry handler is answered from
      its verb method's reply: the failure's status and reason, or the
      reply's status and body. */
  lemma ServedEntry(svc: Service, debug: bool, req: Request, id: string, trace: string)
    requires Route(AppRules, req.path) == Matched(AddressBookEntryHandler, IdGroup(id))
    requires req.verb in {"GET", "PUT", "DELETE"}
    ensures var reply := EntryReply(svc, req.verb, id, req.decodedBody);
      var r := Serve(svc, debug, req, trace);
      && (reply.Failed? ==> r.status == ErrorStatus(reply.failure) && r.reason == ErrorReason(reply.failure))
      && (reply.Completed? ==> r.status == reply.status && r.body == reply.body)
  {
    assert Execute(svc, Route(AppRules, req.path), req) == EntryReply(svc, req.verb, id, req.decodedBody);
  }

  /** The reason of a 404 raised with a message: the message, or the
      standard "Not Found" when it is empty. */
  lemma NotFoundReason(message: string)
    ensures ErrorReason(HttpError(404, Some(message))) == if message != "" then message else "Not Found"
  {
  }

  /** The identifier in an entry path reaches `get_address` unchanged: GET
      answers 200 with what `finish` writes for the entry it returns, or
      500 when `finish` refuses it; a `KeyError` gives 404 with its
      message as the reason, or the standard "Not Found" when the message
      is empty; any other exception gives 500. */
  lemma EntryIdPassesThrough(svc: Service, debug: bool, id: string, slash: bool, trace: string)
    requires IsId(id)
    ensures var r := Serve(svc, debug, Request("GET", EntryPath(id, slash), Returned(JNull)), trace);
      match svc.getAddress(id)
      case Returned(addr) =>
        && (FinishBody(addr).Returned? ==> r.status == 200 && r.body == FinishBody(addr).value)
        && (FinishBody(addr).Raised? ==> r.status == 500)
      case Raised(e) =>
        && (IsInstance(e, KeyError) ==> r.status == 404 && r.reason == (if e.text != "" then e.text else "Not Found"))
        && (!IsInstance(e, KeyError) ==> r.status == 500)
  {
    var req := Request("GET", EntryPath(id, slash), Returned(JNull));
    ServedEntry(svc, debug, req, id, trace);
    GetDeleteOutcomes(svc, id);
    var r := Serve(svc, debug, req, trace);
    match svc.getAddress(id)
    case Returned(addr) =>
      if FinishBody(addr).Returned? {
        assert r.status == 200 && r.body == FinishBody(addr).value;
      } else {
        assert r.status == 500;
      }
    case Raised(e) =>
      assert EntryGet(svc, id) == KeyErrorReply(e, None);
      if IsInstance(e, KeyError) {
        NotFoundReason(e.text);
        assert r.reason == ErrorReason(HttpError(404, Some(e.text)));
      }
  }

  /** The identifier in an entry path reaches `put_address` unchanged,
      with the decoded body: PUT answers 204 exactly when that call
      returns, and a `KeyError` from it gives 404 with its message as the
      reason (or "Not Found" when the message is empty). */
  lemma EntryPutPassesThrough(svc: Service, debug: bool, id: string, slash: bool, decoded: Outcome<Json>, trace: string)
    requires IsId(id)
    ensures var r := Serve(svc, debug, Request("PUT", EntryPath(id, slash), decoded), trace);
      && (r.status == 204 <==> decoded.Returned? && svc.putAddress(id, decoded.value).Returned?)
      && (decoded.Returned? && svc.putAddress(id, decoded.value).Raised? ==>
            var e := svc.putAddress(id, decoded.value).exc;
            IsInstance(e, KeyError) ==> r.status == 404 && r.reason == (if e.text != "" then e.text else "Not Found"))
  {
    ServedEntry(svc, debug, Request("PUT", EntryPath(id, slash), decoded), id, trace);
    EntryStatuses(svc, id, decoded);
    if decoded.Returned? && svc.putAddress(id, decoded.value).Raised? {
      var e := svc.putAddress(id, decoded.value).exc;
      if IsInstance(e, KeyError) {
        KeyErrorPutFailure(svc, id, decoded.value, e);
        NotFoundReason(e.text);
      }
    }
  }

  /** A `KeyError` from `put_address` reaches PUT's `KeyError` clause. */
  lemma KeyErrorPutFailure(svc: Service, id: string, addr: Json, e: PyException)
    requires svc.putAddress(id, addr) == Raised(e) && IsInstance(e, KeyError)
    ensures EntryPut(svc, id, Returned(addr)) == Failed(HttpError(404, Some(e.text)), None)
  {
    PutOutcomes(svc, id, Returned(addr));
  }

  /** The identifier in an entry path reaches `delete_address` unchanged:
      DELETE answers 204 exactly when that call returns, a `KeyError` from
      it gives 404 with its message as the reason (or "Not Found" when the
      message is empty), and any other exception gives 500. */
  lemma EntryDeletePassesThrough(svc: Service, debug: bool, id: string, slash: bool, trace: string)
    requires IsId(id)
    ensures var r := Serve(svc, debug, Request("DELETE", EntryPath(id, slash), Returned(JNull)), trace);
      match svc.deleteAddress(id)
      case Returned(_) => r.status == 204 && r.body == Empty
      case Raised(e) =>
        && (IsInstance(e, KeyError) ==> r.status == 404 && r.reason == (if e.text != "" then e.text else "Not Found"))
        && (!IsInstance(e, KeyError) ==> r.status == 500)
  {
    var req := Request("DELETE", EntryPath(id, slash), Returned(JNull));
    ServedEntry(svc, debug, req, id, trace);
    GetDeleteOutcomes(svc, id);
    match svc.deleteAddress(id)
    case Returned(_) =>
      assert EntryDelete(svc, id) == Completed(204, map[], Empty);
    case Raised(e) =>
      assert EntryDelete(svc, id) == KeyErrorReply(e, None);
      if IsInstance(e, KeyError) {
        NotFoundReason(e.text);
      }
  }

  /** GET on the liveness path always answers 200 with the collaborator's
      uptime under the key `uptime`; GET on the collection answers 200
      with what `finish` writes for the collection the collaborator gave,
      or 500 when the collaborator raised or `finish` refuses the value. */
  lemma LivenessAndCollectionResponses(svc: Service, debug: bool, live: string, book: string, trace: string)
    requires live == "/healthz" || live == "/healthz/"
    requires book == "/addressbook" || book == "/addressbook/"
    ensures var r := Serve(svc, debug, Request("GET", live, Returned(JNull)), trace);
      r.status == 200 && r.body == Payload(JObject(map["uptime" := JInt(svc.uptimeMillis)]))
    ensures var r := Serve(svc, debug, Request("GET", book, Returned(JNull)), trace);
      match svc.allAddresses
      case Returned(all) =>
        && (FinishBody(all).Returned? ==> r.status == 200 && r.body == FinishBody(all).value)
        && (FinishBody(all).Raised? ==> r.status == 500)
      case Raised(_) => r.status == 500
  {
    RouteCases(live);
    RouteCases(book);
  }

  /** GET on the readiness path answers 200 exactly when the snapshot's
      `ready` is truthy and 503 otherwise, and the body is the snapshot. */
  lemma ReadinessResponse(svc: Service, debug: bool, path: string, trace: string)
    requires path == "/readiness" || path == "/readiness/"
    requires svc.status.Returned? && "ready" in svc.status.value
    ensures var r := Serve(svc, debug, Request("GET", path, Returned(JNull)), trace);
      && (r.status == 200 <==> Truthy(svc.status.value["ready"]))
      && (r.status == 503 <==> !Truthy(svc.status.value["ready"]))
      && r.body == Payload(JObject(svc.status.value))
  {
    RouteCases(path);
    ReadinessStatusRule(svc);
  }

  /** Every response is one of the application's statuses. The 400, 404,
      405 and 500 responses, and only they, are error envelopes; the only
      other non-2xx status, 503, is readiness reporting its snapshot. */
  lemma ResponseShapes(svc: Service, debug: bool, req: Request, trace: string)
    ensures var r := Serve(svc, debug, req, trace);
      && r.status in {200, 201, 204, 400, 404, 405, 500, 503}
      && (IsErrorEnvelope(r, req, debug, trace) <==> r.status in {400, 404, 405, 500})
      && (r.status == 503 ==>
            Route(AppRules, req.path).Matched? && Route(AppRules, req.path).handler == ReadinessHandler
            && svc.status.Returned? && r.body == Payload(JObject(svc.status.value)))
  {
    ExecuteStatuses(svc, Route(AppRules, req.path), req);
  }

  /** Client errors are logged as warnings and escaped exceptions as
      errors; successful responses and the readiness 503 are not warnings. */
  lemma ServedSeverity(svc: Service, debug: bool, req: Request, trace: string)
    ensures var r := Serve(svc, debug, req, trace);
      && (r.status in {400, 404, 405} ==> LogSeverity(r.status) == Warning)
      && (LogSeverity(r.status) == Error <==> r.status in {500, 503})
      && (LogSeverity(r.status) == Info <==> r.status in {200, 201, 204})
  {
    ResponseShapes(svc, debug, req, trace);
  }
}
