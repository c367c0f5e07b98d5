/**
 * The request lifecycle of the `Koa` application class (app/application.ts):
 * the response serialiser `respond`, the default status set by
 * `handleRequest`, the suppression test of the default error handler and the
 * `isJSON` and `compose` stubs.
 *
 * Two collaborators stay abstract and are given as a `Platform` value:
 * the table `statuses.empty` (a set of status codes) and `JSON.stringify`
 * (any function from bodies to its three possible results). `Buffer.byteLength`
 * and the bytes `res.end` writes for a string are the UTF-8 functions of
 * module Utf8; `String(code)` is Decimal.DecimalString.
 */
module Application {
  import opened Wrappers
  import Utf8
  import Decimal

  /** The value held in `ctx.body` when `respond` runs. */
  datatype Body =
    | Null                      // `null`
    | Undefined                 // `undefined`, the value of a body nobody set
    | Buf(bytes: seq<bv8>)      // a Node `Buffer`
    | Str(text: string)         // a JavaScript string
    | Stream                    // an instance of `Stream`
    | Obj(handle: nat)          // any other value; its JSON text comes from `stringify`

  /** `null == body` in JavaScript holds for exactly `null` and `undefined`. */
  predicate IsNullish(b: Body) {
    b.Null? || b.Undefined?
  }

  /**
   * A thrown JavaScript error: `kind` identifies it (its name, and its Node
   * error code where it has one); `status` and `expose` are the two
   * properties `onerror` reads.
   */
  datatype Error = Error(kind: string, status: Option<int>, expose: bool)

  /** `Buffer.byteLength(undefined)` throws: its argument must be a string or a buffer. */
  const InvalidArgType := Error("TypeError [ERR_INVALID_ARG_TYPE]", None, false)

  /** Reading a property of `undefined` throws a TypeError. */
  const ReadOfUndefined := Error("TypeError", None, false)

  /** What `JSON.stringify(v)` does: returns text, returns `undefined`, or throws. */
  datatype Json = Text(text: string) | Absent | Throws(error: Error)

  /** The collaborators `respond` consults without defining them. */
  datatype Platform = Platform(emptyStatuses: set<int>, stringify: Body -> Json)

  /** The two facts about `JSON.stringify` on nullish values that hold in every engine. */
  predicate StringifiesNullish(p: Platform) {
    p.stringify(Null) == Text("null") && p.stringify(Undefined) == Absent
  }

  /**
   * The fields of the per-request context that `respond` and `handleRequest`
   * read or write. `message` is the empty string when it is falsy.
   */
  datatype CtxState = CtxState(
    respond: Option<bool>,
    writable: bool,
    status: int,
    requestMethod: string,
    body: Body,
    headersSent: bool,
    message: string,
    length: Option<nat>,
    contentType: Option<string>)

  /** What `respond` does to the outgoing response. */
  datatype Outcome =
    | NoAction                  // returns without touching the response
    | EndEmpty                  // `res.end()`
    | EndWith(data: seq<bv8>)   // `res.end(body)`, with the bytes written
    | Pipe                      // `body.pipe(res)`
    | Threw(error: Error)       // an exception escapes `respond`

  /** An outcome together with the context fields afterwards. */
  datatype Step = Step(outcome: Outcome, after: CtxState)

  /** `isJSON` (app/application.ts:76-78): a stub that accepts every body. */
  predicate IsJson(body: Body) {
    true
  }

  /** `Buffer.byteLength(JSON.stringify(v))`, which throws when the JSON text is `undefined`. */
  function JsonByteLength(j: Json): (r: Result<nat, Error>)
    ensures r.Success? <==> j.Text?
    ensures r.Success? ==> r.value == |Utf8.Encode(j.text)|
    ensures r.Failure? && !j.Throws? ==> Reports(r.error)
  {
    match j
    case Text(t) => Success(Utf8.ByteLength(t))
    case Absent => Failure(InvalidArgType)
    case Throws(e) => Failure(e)
  }

  /** The text `respond` sends for a nullish body: `ctx.message || String(code)`. */
  function FallbackText(s: CtxState): (r: string)
    ensures r != []
    ensures s.message != "" ==> r == s.message
    ensures s.message == "" ==> Decimal.ParseDecimal(r) == Some(s.status) && Decimal.NoLeadingZero(r)
  {
    if s.message != "" then s.message
    else
      Decimal.DecimalRoundTrip(s.status);
      Decimal.DecimalString(s.status)
  }

  /**
   * What `respond` (app/application.ts:81-126) does, rule by rule, first
   * match wins: bypass, closed connection, empty status, HEAD, nullish
   * body, buffer, string, stream, and JSON for everything else.
   */
  function Serialize(p: Platform, s: CtxState): (r: Step)
    ensures r.outcome == NoAction <==> s.respond == Some(false) || !s.writable
    ensures r.after.respond == s.respond && r.after.writable == s.writable
    ensures r.after.status == s.status && r.after.requestMethod == s.requestMethod
    ensures r.after.headersSent == s.headersSent && r.after.message == s.message
    ensures r.after.body != s.body ==> r.after.body == Null
    ensures s.headersSent ==> r.after.length == s.length && r.after.contentType == s.contentType
    ensures r.outcome.Threw? ==> r.after == s
    ensures r.outcome.EndWith? || r.outcome.Pipe? ==>
              s.status !in p.emptyStatuses && s.requestMethod != "HEAD"
  {
    if s.respond == Some(false) then Step(NoAction, s)
    else if !s.writable then Step(NoAction, s)
    else if s.status in p.emptyStatuses then Step(EndEmpty, s.(body := Null))
    else if s.requestMethod == "HEAD" then
      if !s.headersSent && IsJson(s.body) then
        match JsonByteLength(p.stringify(s.body))
        case Success(n) => Step(EndEmpty, s.(length := Some(n)))
        case Failure(e) => Step(Threw(e), s)
      else Step(EndEmpty, s)
    else if IsNullish(s.body) then
      var text := FallbackText(s);
      var s' := if !s.headersSent
        then s.(contentType := Some("text"), length := Some(Utf8.ByteLength(text)))
        else s;
      Step(EndWith(Utf8.Encode(text)), s')
    else
      match s.body
      case Buf(bytes) => Step(EndWith(bytes), s)
      case Str(t) => Step(EndWith(Utf8.Encode(t)), s)
      case Stream => Step(Pipe, s)
      case _ =>
        match p.stringify(s.body)
        case Throws(e) => Step(Threw(e), s)
        case Absent =>
          if !s.headersSent then Step(Threw(InvalidArgType), s) else Step(EndEmpty, s)
        case Text(j) =>
          Step(EndWith(Utf8.Encode(j)),
               if !s.headersSent then s.(length := Some(Utf8.ByteLength(j))) else s)
  }

  /** How the promise returned by the middleware chain settles, and the context it leaves. */
  datatype Settlement =
    | Fulfilled(after: CtxState, withContext: bool)   // fulfilment value: `ctx` itself, or `undefined`
    | Rejected(after: CtxState, error: Error)

  /** The result of one request: a response from `respond`, or an error handed to `ctx.onerror`. */
  datatype Dispatch = Responded(outcome: Outcome) | Caught(error: Error)

  datatype Handled = Handled(dispatch: Dispatch, after: CtxState)

  /** The `respond` step of `handleRequest`, with its exceptions routed to the catch handler. */
  function RespondCatching(p: Platform, s: CtxState): (r: Handled)
    ensures r.dispatch.Responded? ==> !r.dispatch.outcome.Threw?
    ensures r.dispatch.Caught? <==> Serialize(p, s).outcome.Threw?
    ensures r.dispatch.Caught? ==> r.dispatch.error == Serialize(p, s).outcome.error
    ensures r.dispatch.Responded? ==> r.dispatch.outcome == Serialize(p, s).outcome
    ensures r.after == Serialize(p, s).after
  {
    var step := Serialize(p, s);
    if step.outcome.Threw? then Handled(Caught(step.outcome.error), step.after)
    else Handled(Responded(step.outcome), step.after)
  }

  /**
   * `handleRequest` (app/application.ts:129-141) with `respond` applied to
   * `ctx` once the chain fulfils: the status is 404 while the chain runs,
   * and a rejection, or an exception from `respond`, goes to the catch handler.
   */
  function Handle(p: Platform, chain: CtxState -> Settlement, s: CtxState): (r: Handled)
    ensures r.dispatch.Caught? <==>
              chain(s.(status := 404)).Rejected? || Serialize(p, chain(s.(status := 404)).after).outcome.Threw?
    ensures r.dispatch.Responded? ==>
              r.dispatch.outcome == Serialize(p, chain(s.(status := 404)).after).outcome
    ensures chain(s.(status := 404)).Rejected? ==>
              r == Handled(Caught(chain(s.(status := 404)).error), chain(s.(status := 404)).after)
    ensures chain(s.(status := 404)).Fulfilled? && r.dispatch.Caught? ==>
              r.dispatch.error == Serialize(p, chain(s.(status := 404)).after).outcome.error
    ensures chain(s.(status := 404)).Fulfilled? ==>
              r.after == Serialize(p, chain(s.(status := 404)).after).after
  {
    match chain(s.(status := 404))
    case Rejected(after, e) => Handled(Caught(e), after)
    case Fulfilled(after, _) => RespondCatching(p, after)
  }

  /**
   * `handleRequest` as written: `.then(onrespond)` hands `respond` the value
   * the chain's promise fulfils with. When that value is `undefined` (the
   * only value `compose` ever fulfils with), `respond` reads `.respond` of
   * `undefined` and throws a TypeError.
   */
  function HandleAsWritten(p: Platform, chain: CtxState -> Settlement, s: CtxState): (r: Handled)
    ensures chain(s.(status := 404)).Rejected? || chain(s.(status := 404)).withContext ==>
              r == Handle(p, chain, s)
    ensures chain(s.(status := 404)).Fulfilled? && !chain(s.(status := 404)).withContext ==>
              r == Handled(Caught(ReadOfUndefined), chain(s.(status := 404)).after)
  {
    match chain(s.(status := 404))
    case Rejected(after, e) => Handled(Caught(e), after)
    case Fulfilled(after, withContext) =>
      if withContext then RespondCatching(p, after) else Handled(Caught(ReadOfUndefined), after)
  }

  /** The chain `compose` returns (app/application.ts:40-44): it fulfils at once with `undefined`. */
  function ComposeStub(s: CtxState): Settlement
  {
    Fulfilled(s, false)
  }

  /** The test in `onerror` (app/application.ts:48) that decides whether a diagnostic is written. */
  predicate Reports(err: Error) {
    !(err.status == Some(404) || err.expose)
  }

  /** The per-request context, whose fields `respond` and `handleRequest` update in place. */
  class Context {
    var respond: Option<bool>
    var writable: bool
    var status: int
    var requestMethod: string
    var body: Body
    var headersSent: bool
    var message: string
    var length: Option<nat>
    var contentType: Option<string>

    function Snapshot(): CtxState
      reads this
    {
      CtxState(respond, writable, status, requestMethod, body, headersSent, message, length, contentType)
    }

    constructor (s: CtxState)
      ensures Snapshot() == s
    {
      respond, writable, status, requestMethod := s.respond, s.writable, s.status, s.requestMethod;
      body, headersSent, message := s.body, s.headersSent, s.message;
      length, contentType := s.length, s.contentType;
    }

    /** Overwrites every field with `s`: the effect of the middleware chain on the context. */
    method Load(s: CtxState)
      modifies this
      ensures Snapshot() == s
    {
      respond, writable, status, requestMethod := s.respond, s.writable, s.status, s.requestMethod;
      body, headersSent, message := s.body, s.headersSent, s.message;
      length, contentType := s.length, s.contentType;
    }

    /** `respond` (app/application.ts:81-126): returns early at the first rule that applies. */
    method Respond(p: Platform) returns (out: Outcome)
      modifies this
      ensures Step(out, Snapshot()) == Serialize(p, old(Snapshot()))
    {
      if respond == Some(false) { return NoAction; }
      if !writable { return NoAction; }

      var b := body;
      var code := status;

      if code in p.emptyStatuses {
        body := Null;
        return EndEmpty;
      }

      if requestMethod == "HEAD" {
        if !headersSent && IsJson(b) {
          var measured := JsonByteLength(p.stringify(b));
          if measured.Failure? { return Threw(measured.error); }
          length := Some(measured.value);
        }
        return EndEmpty;
      }

      if IsNullish(b) {
        var text := if message != "" then message else Decimal.DecimalString(code);
        if !headersSent {
          contentType := Some("text");
          length := Some(Utf8.ByteLength(text));
        }
        return EndWith(Utf8.Encode(text));
      }

      if b.Buf? { return EndWith(b.bytes); }
      if b.Str? { return EndWith(Utf8.Encode(b.text)); }
      if b.Stream? { return Pipe; }

      var json := p.stringify(b);
      if json.Throws? { return Threw(json.error); }
      if !headersSent {
        var measured := JsonByteLength(json);
        if measured.Failure? { return Threw(measured.error); }
        length := Some(measured.value);
      }
      out := if json.Text? then EndWith(Utf8.Encode(json.text)) else EndEmpty;
    }

    /**
     * `handleRequest` (app/application.ts:129-141), with `respond` applied to
     * the context: sets the status to 404, runs the chain, then responds or
     * hands the error to the catch handler.
     */
    method HandleRequest(p: Platform, chain: CtxState -> Settlement) returns (d: Dispatch)
      modifies this
      ensures Handled(d, Snapshot()) == Handle(p, chain, old(Snapshot()))
    {
      status := 404;
      var settled := chain(Snapshot());
      Load(settled.after);
      if settled.Rejected? {
        d := Caught(settled.error);
      } else {
        var out := Respond(p);
        d := if out.Threw? then Caught(out.error) else Responded(out);
      }
    }
  }
}
