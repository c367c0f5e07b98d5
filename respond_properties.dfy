/**
 * What `respond`, `handleRequest` and `onerror` (app/application.ts) promise,
 * stated about the specification functions of module Application.
 */
module RespondProperties {
  import opened Wrappers
  import Utf8
  import Decimal
  import opened Application

  /** The preconditions of rule 3 and later: not bypassed and still writable. */
  predicate Live(s: CtxState) {
    s.respond != Some(false) && s.writable
  }

  /** `ctx.respond === false` bypasses everything: no output, no field changes. */
  lemma BypassDoesNothing(p: Platform, s: CtxState)
    requires s.respond == Some(false)
    ensures Serialize(p, s) == Step(NoAction, s)
  {
  }

  /** A context that is no longer writable is left alone, whatever its body, status or method. */
  lemma ClosedDoesNothing(p: Platform, s: CtxState)
    requires !s.writable
    ensures Serialize(p, s) == Step(NoAction, s)
  {
  }

  /**
   * A status from the empty-status table wins over the method and the body:
   * the body is cleared, the response ends without data, length and type stay.
   */
  lemma EmptyStatusEndsEmpty(p: Platform, s: CtxState, method': string, body': Body)
    requires Live(s) && s.status in p.emptyStatuses
    ensures Serialize(p, s.(requestMethod := method', body := body'))
            == Step(EndEmpty, s.(requestMethod := method', body := Null))
  {
  }

  /**
   * A HEAD request never carries a body. Before the headers go out it records
   * the byte length of the body's JSON text (`isJSON` accepts every body); if
   * that text cannot be measured the exception escapes and nothing changes.
   */
  lemma HeadSendsNoBody(p: Platform, s: CtxState)
    requires Live(s) && s.status !in p.emptyStatuses && s.requestMethod == "HEAD"
    ensures s.headersSent ==> Serialize(p, s) == Step(EndEmpty, s)
    ensures !s.headersSent && p.stringify(s.body).Text? ==>
              Serialize(p, s) == Step(EndEmpty, s.(length := Some(Utf8.ByteLength(p.stringify(s.body).text))))
    ensures !s.headersSent && p.stringify(s.body).Absent? ==>
              Serialize(p, s) == Step(Threw(InvalidArgType), s)
    ensures !s.headersSent && p.stringify(s.body).Throws? ==>
              Serialize(p, s) == Step(Threw(p.stringify(s.body).error), s)
  {
  }

  /**
   * As written, a HEAD request whose body was never set throws before the
   * headers are sent: `JSON.stringify(undefined)` is `undefined`, which
   * `Buffer.byteLength` refuses; a `null` body is measured as "null".
   */
  lemma HeadWithNullishBody(p: Platform, s: CtxState)
    requires StringifiesNullish(p)
    requires Live(s) && s.status !in p.emptyStatuses && s.requestMethod == "HEAD" && !s.headersSent
    ensures s.body == Undefined ==> Serialize(p, s) == Step(Threw(InvalidArgType), s)
    ensures s.body == Null ==> Serialize(p, s) == Step(EndEmpty, s.(length := Some(4)))
  {
  }

  /**
   * A nullish body is replaced by the message, or by the status in decimal
   * when the message is empty; before the headers go out the type becomes
   * 'text' and the length is the number of bytes sent.
   */
  lemma NullishBodySendsFallback(p: Platform, s: CtxState)
    requires Live(s) && s.status !in p.emptyStatuses && s.requestMethod != "HEAD" && IsNullish(s.body)
    ensures var text := if s.message != "" then s.message else Decimal.DecimalString(s.status);
            Serialize(p, s).outcome == EndWith(Utf8.Encode(text))
    ensures !s.headersSent ==>
              Serialize(p, s).after
              == s.(contentType := Some("text"), length := Some(|Serialize(p, s).outcome.data|))
    ensures s.headersSent ==> Serialize(p, s).after == s
  {
  }

  /** Status 500 with no body and no message sends the three bytes "500" and records length 3. */
  lemma StatusTextForServerError(p: Platform, s: CtxState)
    requires Live(s) && s.status == 500 && 500 !in p.emptyStatuses
    requires s.requestMethod != "HEAD" && IsNullish(s.body) && s.message == "" && !s.headersSent
    ensures Serialize(p, s) == Step(EndWith([0x35, 0x30, 0x30]), s.(contentType := Some("text"), length := Some(3)))
  {
    Decimal.FiveHundred();
    Utf8.AsciiEncoding("500");
  }

  /** Buffers and strings are sent as they are and streams are piped; no field changes. */
  lemma VerbatimBodies(p: Platform, s: CtxState)
    requires Live(s) && s.status !in p.emptyStatuses && s.requestMethod != "HEAD"
    ensures s.body.Buf? ==> Serialize(p, s) == Step(EndWith(s.body.bytes), s)
    ensures s.body.Str? ==> Serialize(p, s) == Step(EndWith(Utf8.Encode(s.body.text)), s)
    ensures s.body == Stream ==> Serialize(p, s) == Step(Pipe, s)
  {
  }

  /**
   * Any other body is sent as its JSON text; its byte length is recorded
   * exactly when the headers have not gone out. A stringify that throws, or
   * a JSON text of `undefined` that must be measured, escapes as an exception.
   */
  lemma JsonBody(p: Platform, s: CtxState)
    requires Live(s) && s.status !in p.emptyStatuses && s.requestMethod != "HEAD" && s.body.Obj?
    ensures p.stringify(s.body).Text? ==>
              var j := p.stringify(s.body).text;
              Serialize(p, s) == Step(EndWith(Utf8.Encode(j)),
                                      if s.headersSent then s else s.(length := Some(Utf8.ByteLength(j))))
    ensures p.stringify(s.body).Absent? ==>
              Serialize(p, s) == if s.headersSent then Step(EndEmpty, s) else Step(Threw(InvalidArgType), s)
    ensures p.stringify(s.body).Throws? ==> Serialize(p, s) == Step(Threw(p.stringify(s.body).error), s)
  {
  }

  /**
   * Whenever `respond` itself records a length and sends data, the length is
   * the number of bytes it sends; buffers and strings keep the length they had.
   */
  lemma RecordedLengthMatchesBytesSent(p: Platform, s: CtxState)
    requires !s.headersSent
    requires Serialize(p, s).outcome.EndWith?
    ensures s.body.Buf? || s.body.Str? ==> Serialize(p, s).after.length == s.length
    ensures !s.body.Buf? && !s.body.Str? ==>
              Serialize(p, s).after.length == Some(|Serialize(p, s).outcome.data|)
  {
  }

  /**
   * Every exception `respond` raises on its own account (not one thrown out
   * of `JSON.stringify`) has no status and is not exposed, so `onerror` reports it.
   */
  lemma RespondFaultsAreReported(p: Platform, s: CtxState)
    requires Serialize(p, s).outcome.Threw?
    requires !p.stringify(s.body).Throws?
    ensures Reports(Serialize(p, s).outcome.error)
  {
  }

  /** The status the context had before `handleRequest` never matters: it is overwritten with 404. */
  lemma DefaultStatusIsNotFound(p: Platform, chain: CtxState -> Settlement, s: CtxState, earlier: int)
    ensures Handle(p, chain, s.(status := earlier)) == Handle(p, chain, s)
  {
    assert s.(status := earlier).(status := 404) == s.(status := 404);
  }

  /**
   * With `respond` applied to `ctx` (the corrected `handleRequest`) and the
   * chain `compose` returns, a request other than HEAD with no body and an
   * empty message is answered with the text "404", type 'text' and length 3.
   * As written the same request ends in a TypeError (StubChainNeverResponds).
   */
  lemma UntouchedRequestIsNotFound(p: Platform, s: CtxState)
    requires Live(s) && 404 !in p.emptyStatuses && s.requestMethod != "HEAD"
    requires IsNullish(s.body) && s.message == "" && !s.headersSent
    ensures Handle(p, ComposeStub, s)
            == Handled(Responded(EndWith([0x34, 0x30, 0x34])),
                       s.(status := 404, contentType := Some("text"), length := Some(3)))
  {
    var t := s.(status := 404);
    assert Decimal.Digits(4) == "4";
    assert Decimal.Digits(40) == "40";
    assert FallbackText(t) == "404";
    Utf8.AsciiEncoding("404");
    assert Utf8.Encode("404") == [0x34, 0x30, 0x34];
    var step := Serialize(p, t);
    assert step == Step(EndWith([0x34, 0x30, 0x34]), t.(contentType := Some("text"), length := Some(3)));
    assert Handle(p, ComposeStub, s) == RespondCatching(p, t);
  }

  /**
   * As written, `handleRequest` with the chain `compose` returns never
   * responds: `respond` receives `undefined`, throws, and the error goes to
   * the catch handler; the response is never ended.
   */
  lemma StubChainNeverResponds(p: Platform, s: CtxState)
    ensures HandleAsWritten(p, ComposeStub, s) == Handled(Caught(ReadOfUndefined), s.(status := 404))
    ensures Reports(ReadOfUndefined)
  {
  }

  /**
   * With `respond` applied to the context, the same chain gets the response
   * `respond` computes for the context at status 404, whenever that does not throw.
   */
  lemma StubChainIsServed(p: Platform, s: CtxState)
    requires !Serialize(p, s.(status := 404)).outcome.Threw?
    ensures Handle(p, ComposeStub, s)
            == Handled(Responded(Serialize(p, s.(status := 404)).outcome), Serialize(p, s.(status := 404)).after)
  {
  }
}
