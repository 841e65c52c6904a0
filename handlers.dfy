/** The request handlers as objects whose response state their methods
    update step by step (`set_status`, `set_header`, `finish`,
    `write_error`), and one request served end to end. */
module Handlers {
  import opened Python
  import opened Routes
  import opened Responses
  import opened Endpoints

  /** One handler instance, living for one request. The collaborator and
      the `serve_traceback` setting are injected and never reassigned. */
  class RequestHandler {
    const request: Request
    const service: Service
    const serveTraceback: bool

    var status: int
    var reason: string
    var headers: map<string, string>
    var body: Body
    var finished: bool

    /** The response state as a value. */
    function Snapshot(): (r: Response)
      reads this
    {
      Response(status, reason, headers, body)
    }

    constructor (request: Request, service: Service, serveTraceback: bool)
      ensures this.request == request && this.service == service && this.serveTraceback == serveTraceback
      ensures Snapshot() == Initial && !finished
    {
      this.request := request;
      this.service := service;
      this.serveTraceback := serveTraceback;
      status, reason, headers, body := 200, "OK", map[], Empty;
      finished := false;
    }

    /** `set_status(code, reason=...)`: without a reason, the standard
        phrase of the code. */
    method SetStatus(code: int, explicit: Option<string>)
      modifies this
      ensures status == code
      ensures reason == (if explicit.Some? then explicit.value else ReasonPhrase(code))
      ensures headers == old(headers) && body == old(body) && finished == old(finished)
    {
      status := code;
      reason := if explicit.Some? then explicit.value else ReasonPhrase(code);
    }

    /** `set_header(name, value)`: a value holding a control character is
        refused with a `ValueError` and the headers stay as they were. */
    method SetHeader(name: string, value: string) returns (raised: Option<PyException>)
      modifies this
      ensures raised == HeaderRaised(value)
      ensures headers == if raised.None? then old(headers)[name := value] else old(headers)
      ensures status == old(status) && reason == old(reason) && body == old(body) && finished == old(finished)
    {
      if SafeHeaderValue(value) {
        headers := headers[name := value];
        raised := None;
      } else {
        raised := Some(UnsafeHeaderError(value));
      }
    }

    /** `finish(chunk)`, with `JNull` for `None`: what `write` makes of the
        chunk becomes the final body; a chunk `write` refuses raises before
        anything changes. Finishing twice is an error. */
    method Finish(chunk: Json) returns (raised: Option<PyException>)
      requires !finished
      modifies this
      ensures raised == if FinishBody(chunk).Raised? then Some(FinishBody(chunk).exc) else None
      ensures raised.None? ==> body == FinishBody(chunk).value && finished
      ensures raised.Some? ==> body == old(body) && !finished
      ensures status == old(status) && reason == old(reason) && headers == old(headers)
    {
      match FinishBody(chunk)
      case Raised(e) =>
        raised := Some(e);
      case Returned(written) =>
        body := written;
        finished := true;
        raised := None;
    }

    /** `clear()`: back to 200 "OK" with no headers and no body. */
    method Clear()
      modifies this
      ensures Snapshot() == Initial && finished == old(finished)
    {
      status, reason, headers, body := 200, "OK", map[], Empty;
    }

    /** `BaseRequestHandler.write_error`: JSON content type, then finish
        with the envelope of method, path, code and the current reason,
        plus `trace` under `serve_traceback` when exception information
        was passed. */
    method WriteError(code: int, excInfo: Option<string>)
      requires !finished
      modifies this
      ensures finished
      ensures status == old(status) && reason == old(reason)
      ensures headers == old(headers)[ContentType := JsonContentType]
      ensures body == Payload(Envelope(request.verb, request.path, code, old(reason), TraceField(serveTraceback, excInfo)))
    {
      JsonContentTypeSafe();
      var refused := SetHeader(ContentType, JsonContentType);
      var trace: Option<string> := None;
      if serveTraceback && excInfo.Some? {
        trace := excInfo;
      }
      var envelope := Envelope(request.verb, request.path, code, reason, trace);
      var raised := Finish(envelope);
    }

    /** The framework's `send_error` for a failure that escaped the
        handler: clear, set the failure's status and reason, and write the
        error with the exception information. */
    method SendError(f: Failure, trace: string)
      requires !finished
      modifies this
      ensures finished
      ensures Snapshot() == ErrorResponse(request.verb, request.path, f, serveTraceback, Some(trace))
    {
      Clear();
      var code := ErrorStatus(f);
      var explicit: Option<string> := None;
      if f.HttpError? && f.reason.Some? && f.reason.value != "" {
        explicit := f.reason;
      }
      SetStatus(code, explicit);
      WriteError(code, Some(trace));
    }

    /** `DefaultRequestHandler.initialize`: the configured status and
        reason become the handler's own. */
    method InitializeDefault(code: int, message: string)
      modifies this
      ensures status == code && reason == message
      ensures headers == old(headers) && body == old(body) && finished == old(finished)
    {
      SetStatus(code, Some(message));
    }

    /** `DefaultRequestHandler.prepare`: always fails with the status and
        reason the handler holds. */
    method PrepareDefault() returns (f: Failure)
      ensures f == HttpError(status, Some(reason))
    {
      f := HttpError(status, Some(reason));
    }

    /** The default handler for a supported method: `initialize` stores
        the configured status and reason, and `prepare` then fails with
        exactly them, before any verb method runs. */
    method RunDefault(code: int, message: string) returns (f: Failure)
      modifies this
      ensures f == HttpError(code, Some(message))
      ensures status == code && reason == message
      ensures headers == old(headers) && body == old(body) && finished == old(finished)
    {
      InitializeDefault(code, message);
      f := PrepareDefault();
    }

    /** `LivenessRequestHandler.get`. */
    method GetLiveness() returns (failure: Option<Failure>)
      requires !finished
      modifies this
      ensures Snapshot() == Apply(old(Snapshot()), LivenessGet(service))
      ensures failure == FailureOf(LivenessGet(service)) && finished
    {
      var info := JObject(map["uptime" := JInt(service.uptimeMillis)]);
      SetStatus(200, None);
      var raised := Finish(info);
      failure := None;
    }

    /** `ReadinessRequestHandler.get`. */
    method GetReadiness() returns (failure: Option<Failure>)
      requires !finished
      modifies this
      ensures Snapshot() == Apply(old(Snapshot()), ReadinessGet(service))
      ensures failure == FailureOf(ReadinessGet(service)) && (finished <==> failure.None?)
    {
      match service.status
      case Raised(e) =>
        failure := Some(Uncaught(e));
      case Returned(info) =>
        if "ready" !in info {
          failure := Some(Uncaught(PyException(KeyError, "'ready'")));
        } else {
          var code := if Truthy(info["ready"]) then 200 else 503;
          SetStatus(code, None);
          var raised := Finish(JObject(info));
          failure := None;
        }
    }

    /** `AddressBookRequestHandler.get`. */
    method GetAddressBook() returns (failure: Option<Failure>)
      requires !finished
      modifies this
      ensures Snapshot() == Apply(old(Snapshot()), AddressBookGet(service))
      ensures failure == FailureOf(AddressBookGet(service)) && (finished <==> failure.None?)
    {
      match service.allAddresses
      case Raised(e) =>
        failure := Some(Uncaught(e));
      case Returned(all) =>
        SetStatus(200, None);
        var raised := Finish(all);
        failure := if raised.Some? then Some(Uncaught(raised.value)) else None;
    }

    /** `AddressBookRequestHandler.post`. */
    method PostAddressBook() returns (failure: Option<Failure>)
      requires !finished
      modifies this
      ensures Snapshot() == Apply(old(Snapshot()), AddressBookPost(service, request.decodedBody))
      ensures failure == FailureOf(AddressBookPost(service, request.decodedBody)) && (finished <==> failure.None?)
    {
      match request.decodedBody
      case Raised(e) =>
        failure := Some(HandleException(PostClauses, e));
      case Returned(addr) =>
        match service.postAddress(addr)
        case Raised(e) =>
          failure := Some(HandleException(PostClauses, e));
        case Returned(id) =>
          var uri := EntryUri(id);
          SetStatus(201, None);
          var refused := SetHeader("Location", uri);
          if refused.Some? {
            failure := Some(HandleException(PostClauses, refused.value));
          } else {
            var raised := Finish(JNull);
            failure := None;
          }
    }

    /** `AddressBookEntryRequestHandler.get`. */
    method GetEntry(id: string) returns (failure: Option<Failure>)
      requires !finished
      modifies this
      ensures Snapshot() == Apply(old(Snapshot()), EntryGet(service, id))
      ensures failure == FailureOf(EntryGet(service, id)) && (finished <==> failure.None?)
    {
      match service.getAddress(id)
      case Raised(e) =>
        failure := Some(HandleException(KeyClauses, e));
      case Returned(addr) =>
        SetStatus(200, None);
        var raised := Finish(addr);
        failure := if raised.Some? then Some(HandleException(KeyClauses, raised.value)) else None;
    }

    /** `AddressBookEntryRequestHandler.put`. */
    method PutEntry(id: string) returns (failure: Option<Failure>)
      requires !finished
      modifies this
      ensures Snapshot() == Apply(old(Snapshot()), EntryPut(service, id, request.decodedBody))
      ensures failure == FailureOf(EntryPut(service, id, request.decodedBody)) && (finished <==> failure.None?)
    {
      match request.decodedBody
      case Raised(e) =>
        failure := Some(HandleException(PutClauses, e));
      case Returned(addr) =>
        match service.putAddress(id, addr)
        case Raised(e) =>
          failure := Some(HandleException(PutClauses, e));
        case Returned(_) =>
          SetStatus(204, None);
          var raised := Finish(JNull);
          failure := None;
    }

    /** `AddressBookEntryRequestHandler.delete`. */
    method DeleteEntry(id: string) returns (failure: Option<Failure>)
      requires !finished
      modifies this
      ensures Snapshot() == Apply(old(Snapshot()), EntryDelete(service, id))
      ensures failure == FailureOf(EntryDelete(service, id)) && (finished <==> failure.None?)
    {
      match service.deleteAddress(id)
      case Raised(e) =>
        failure := Some(HandleException(KeyClauses, e));
      case Returned(_) =>
        SetStatus(204, None);
        var raised := Finish(JNull);
        failure := None;
    }

    /** The framework's dispatch to the verb method named by the request's
        method; a verb the handler class does not define raises
        `HTTPError(405)`. */
    method RunVerb(handler: Handler, captures: Captures) returns (failure: Option<Failure>)
      requires !finished
      modifies this
      ensures Snapshot() == Apply(old(Snapshot()), Endpoints.RunVerb(service, handler, captures, request))
      ensures failure == FailureOf(Endpoints.RunVerb(service, handler, captures, request))
      ensures finished <==> failure.None?
    {
      var id := if captures.IdGroup? then captures.id else "";
      var verb := request.verb;
      match handler
      case LivenessHandler =>
        if verb == "GET" { failure := GetLiveness(); }
        else { failure := Some(HttpError(405, None)); }
      case ReadinessHandler =>
        if verb == "GET" { failure := GetReadiness(); }
        else { failure := Some(HttpError(405, None)); }
      case AddressBookHandler =>
        if verb == "GET" { failure := GetAddressBook(); }
        else if verb == "POST" { failure := PostAddressBook(); }
        else { failure := Some(HttpError(405, None)); }
      case AddressBookEntryHandler =>
        if verb == "GET" { failure := GetEntry(id); }
        else if verb == "PUT" { failure := PutEntry(id); }
        else if verb == "DELETE" { failure := DeleteEntry(id); }
        else { failure := Some(HttpError(405, None)); }
    }
  }

  /** One request through the application: route the path, construct and
      initialise the handler, refuse an unsupported method, run `prepare`
      and the verb method, and send the error envelope if they failed. */
  method ServeRequest(svc: Service, debug: bool, req: Request, trace: string) returns (resp: Response)
    ensures resp == Serve(svc, debug, req, trace)
  {
    var target := Route(AppRules, req.path);
    var h := new RequestHandler(req, svc, debug);
    var failure: Option<Failure>;
    if req.verb !in SupportedMethods {
      if target.Unmatched? {
        h.InitializeDefault(DefaultStatus, UnknownEndpoint);
      }
      failure := Some(HttpError(405, None));
    } else if target.Unmatched? {
      var f := h.RunDefault(DefaultStatus, UnknownEndpoint);
      failure := Some(f);
    } else {
      failure := h.RunVerb(target.handler, target.captures);
    }
    assert failure == FailureOf(Execute(svc, target, req));
    if failure.Some? {
      h.SendError(failure.value, trace);
    }
    resp := h.Snapshot();
  }
}
