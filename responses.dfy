/** The response a handler builds, the failures that end a handler, the
    error envelope written for them, and the access log's severity. */
module Responses {
  import opened Python

  /** What `finish` leaves in the response: nothing, a string written as
      it is, or a dict written as JSON. */
  datatype Body = Empty | Text(text: string) | Payload(value: Json)

  /** A handler's response state: status code, reason phrase, the headers
      this application sets, and the body passed to `finish`. */
  datatype Response = Response(status: int, reason: string, headers: map<string, string>, body: Body)

  const ContentType := "Content-Type"
  const JsonContentType := "application/json; charset=UTF-8"

  /** The framework's reason phrase for a status code set without an
      explicit reason (the codes this application can produce). */
  function ReasonPhrase(code: int): (phrase: string)
  {
    match code
    case 200 => "OK"
    case 201 => "Created"
    case 204 => "No Content"
    case 400 => "Bad Request"
    case 404 => "Not Found"
    case 405 => "Method Not Allowed"
    case 500 => "Internal Server Error"
    case 503 => "Service Unavailable"
    case _ => "Unknown"
  }

  /** A fresh handler's response: 200, "OK", no headers, no body. */
  const Initial := Response(200, "OK", map[], Empty)

  const WriteTypeMessage := "write() only accepts bytes, unicode, and dict objects"

  /** What `finish(chunk)` writes: `None` writes nothing, a string is
      written as it is and a dict as JSON; `write` refuses every other
      value with a `TypeError` before anything is written. */
  function FinishBody(chunk: Json): (r: Outcome<Body>)
    ensures r.Returned? <==> chunk.JNull? || chunk.JStr? || chunk.JObject?
    ensures chunk.JNull? ==> r == Returned(Empty)
    ensures chunk.JObject? ==> r == Returned(Payload(chunk))
    ensures r.Raised? ==> IsInstance(r.exc, TypeError) && !IsInstance(r.exc, KeyError) && !IsInstance(r.exc, ValueError)
  {
    match chunk
    case JNull => Returned(Empty)
    case JStr(s) => Returned(Text(s))
    case JObject(_) => Returned(Payload(chunk))
    case _ => Raised(PyException(TypeError, WriteTypeMessage))
  }

  /** The framework accepts a header value only when it holds no control
      character from 0x00 to 0x1F, so no header can be split or injected. */
  predicate SafeHeaderValue(value: string)
  {
    forall i :: 0 <= i < |value| ==> value[i] as int >= 0x20
  }

  /** The JSON content type `write_error` sets is an acceptable value. */
  lemma JsonContentTypeSafe()
    ensures SafeHeaderValue(JsonContentType)
  {
    forall i | 0 <= i < |JsonContentType|
      ensures JsonContentType[i] as int >= 0x20
    {
    }
  }

  /** The `ValueError` `set_header` raises for an unsafe value; its `str`
      is the tuple of its two arguments. */
  function UnsafeHeaderError(value: string): (e: PyException)
    ensures IsInstance(e, ValueError) && !IsInstance(e, TypeError) && !IsInstance(e, JSONDecodeError)
    ensures e.text != ""
  {
    PyException(ValueError, "('Unsafe header value %r', '" + value + "')")
  }

  /** How a handler method can end other than by finishing: an
      `HTTPError(code, reason=...)`, or any other exception escaping it. */
  datatype Failure =
    | HttpError(code: int, reason: Option<string>)
    | Uncaught(exc: PyException)

  /** The status `send_error` sets for a failure. */
  function ErrorStatus(f: Failure): (code: int)
  {
    match f
    case HttpError(code, _) => code
    case Uncaught(_) => 500
  }

  /** The reason `send_error` sets: the `HTTPError`'s reason when it is a
      non-empty string, otherwise the standard phrase of the status. */
  function ErrorReason(f: Failure): (reason: string)
  {
    match f
    case HttpError(code, reason) =>
      if reason.Some? && reason.value != "" then reason.value else ReasonPhrase(code)
    case Uncaught(_) => ReasonPhrase(500)
  }

  /** The body dict `write_error` builds; `trace` is added only when given. */
  function Envelope(verb: string, uri: string, code: int, message: string, trace: Option<string>): (envelope: Json)
  {
    var fields := map["method" := JStr(verb), "uri" := JStr(uri), "code" := JInt(code), "message" := JStr(message)];
    JObject(if trace.Some? then fields["trace" := JStr(trace.value)] else fields)
  }

  /** The traceback `write_error` attaches: only when the `serve_traceback`
      setting is on and exception information was passed in. */
  function TraceField(serveTraceback: bool, excInfo: Option<string>): (t: Option<string>)
    ensures t.Some? <==> serveTraceback && excInfo.Some?
    ensures t.Some? ==> t == excInfo
  {
    if serveTraceback && excInfo.Some? then excInfo else None
  }

  /** The envelope carries `method`, `uri`, `code` and `message`, plus
      `trace` exactly when one is given. */
  lemma EnvelopeKeys(verb: string, uri: string, code: int, message: string, trace: Option<string>)
    ensures Envelope(verb, uri, code, message, trace).fields.Keys
         == {"method", "uri", "code", "message"} + (if trace.Some? then {"trace"} else {})
    ensures "trace" in Envelope(verb, uri, code, message, trace).fields <==> trace.Some?
  {
  }

  /** The response `send_error` leaves: it clears the handler's state, sets
      the failure's status and reason, and `write_error` sets the JSON
      content type and finishes with the envelope of the request. */
  function ErrorResponse(verb: string, path: string, f: Failure, serveTraceback: bool, excInfo: Option<string>): (r: Response)
  {
    var code := ErrorStatus(f);
    var reason := ErrorReason(f);
    Response(code, reason, map[ContentType := JsonContentType],
             Payload(Envelope(verb, path, code, reason, TraceField(serveTraceback, excInfo))))
  }

  /** The envelope reports the response's own status and reason, the
      request's method and path, and carries a trace only under
      `serve_traceback` with exception information. */
  lemma ErrorResponseEnvelope(verb: string, path: string, f: Failure, serveTraceback: bool, excInfo: Option<string>)
    ensures var r := ErrorResponse(verb, path, f, serveTraceback, excInfo);
      && r.headers[ContentType] == JsonContentType
      && r.body.Payload? && r.body.value.JObject?
      && r.body.value.fields["code"] == JInt(r.status)
      && r.body.value.fields["message"] == JStr(r.reason)
      && r.body.value.fields["method"] == JStr(verb)
      && r.body.value.fields["uri"] == JStr(path)
      && ("trace" in r.body.value.fields <==> serveTraceback && excInfo.Some?)
  {
  }

  /** Severity of the access log line `log_function` writes. */
  datatype Severity = Info | Warning | Error

  function LogSeverity(status: int): (s: Severity)
  {
    if status < 400 then Info else if status < 500 then Warning else Error
  }

  function Rank(s: Severity): (rank: nat)
  {
    match s
    case Info => 0
    case Warning => 1
    case Error => 2
  }

  /** Below 400 logs at info, 400 to 499 at warning, 500 and above at
      error; and a higher status never logs at a lower severity. */
  lemma LogSeverityBands(status: int, other: int)
    ensures LogSeverity(status) == Info <==> status < 400
    ensures LogSeverity(status) == Warning <==> 400 <= status < 500
    ensures LogSeverity(status) == Error <==> 500 <= status
    ensures status <= other ==> Rank(LogSeverity(status)) <= Rank(LogSeverity(other))
  {
  }
}
