# koa-plus request lifecycle in Dafny

A model of the finished logic of the `Koa` application class of koa-plus
(`app/application.ts`):

- `respond`, the routine that turns the per-request context into what goes on
  the wire: nothing, an empty `res.end()`, `res.end(data)`, or `body.pipe(res)`.
  It works first-match-wins. A bypass flag and a closed connection come
  first. Then come status-driven body suppression (RFC 9110, sections 15.3.5
  and 15.4.5), HEAD (RFC 9110, section 9.3.2) and finally the type of the body.
  Along the way it writes `ctx.body`, `ctx.length` and `ctx.type`;
- `handleRequest`, which sets the default status 404, runs the middleware
  chain and then responds, or hands the error to the catch handler;
- the test in the default `onerror` that decides whether a diagnostic is written;
- the stubs `isJSON` (always true) and `compose` (a chain that fulfils at once).

Modules:

- `Application` (application.dfy) holds the datatypes and the specification
  functions `Serialize` (respond) and `Handle` (handleRequest). It also holds
  the class `Context`, whose methods `Respond` and `HandleRequest` update the
  context's fields in place and are proved equal to those functions.
- `RespondProperties` (respond_properties.dfy) proves the properties of each rule.
- `Utf8` (utf8.dfy) is the UTF-8 encoding of RFC 3629. It gives
  `Buffer.byteLength` of a string and the bytes `res.end` writes for a string.
- `Decimal` (decimal.dfy) is `String(code)` for an integer status, with a
  parser and the round trip between the two.
- `Wrappers` (wrappers.dfy) holds Option and Result.

Two collaborators stay abstract and are passed as a `Platform` value:

- the table `statuses.empty`, as a set of status codes;
- `JSON.stringify`, as any function from bodies to "text", "`undefined`" or
  "throws".

The lemmas that need more than that use `StringifiesNullish`:
`JSON.stringify(null)` is `"null"` and `JSON.stringify(undefined)` is `undefined`.

The model follows the code where it departs from the obvious design.

- Because `isJSON` accepts every body, a HEAD request with headers not yet sent
  always measures `JSON.stringify(body)`.
- A body that was never set is `undefined`, and so this measurement throws
  (`Buffer.byteLength(undefined)`), so such a HEAD request ends in an exception
  rather than an empty response. See `HeadWithNullishBody`.
- In the final branch, a JSON text of `undefined` is sent as an empty `res.end`
  once the headers are out. Before that, it throws while being measured.

## Model

| member | source | states |
|---|---|---|
| `Application.JsonByteLength` | app/application.ts:100 | measuring succeeds exactly when `JSON.stringify` gave text, and then yields the number of bytes that text encodes to; any failure other than one thrown by `JSON.stringify` is reported by `onerror` |
| `Application.FallbackText` | app/application.ts:107 | the text sent for a nullish body is never empty; it is the message when the message is truthy, and otherwise reads back as the status and has no leading zero |
| `Decimal.DecimalString` | app/application.ts:107 | `String(code)` is non-empty, starts with a minus sign exactly for a negative status, is otherwise decimal digits, and has no leading zero and no "-0" |
| `Application.Serialize` | app/application.ts:81-126 | no action exactly when bypassed or not writable; `respond` never changes the bypass flag, `writable`, status, method, `headersSent` or message; the body changes only to null; length and type stay once headers are sent; an exception leaves the context unchanged; data is sent or piped only for a non-empty status and a method other than HEAD |
| `Application.Context.Respond` | app/application.ts:81-126 | the in-place `respond` returns the outcome and leaves the fields that `Serialize` gives for the old fields |
| `Application.RespondCatching` | app/application.ts:137-139 | the catch handler receives an error exactly when `respond` throws, and it receives that error; otherwise the response is the one `respond` gives; either way the context fields are those `respond` leaves |
| `Application.Handle` | app/application.ts:129-141 | the catch handler receives an error exactly when the chain (run at status 404) rejects or `respond` throws on the context the chain leaves; a rejection hands on the chain's own error and leaves the context the chain left; after a fulfilment the error is the one `respond` threw and the fields are those `respond` leaves; a response is always the one `respond` gives on that context |
| `Application.HandleAsWritten` | app/application.ts:137-139 | as written, a fulfilment with `undefined` yields a TypeError in the catch handler instead of a response; otherwise it agrees with `Handle` |
| `Application.Context.HandleRequest` | app/application.ts:129-141 | the in-place `handleRequest` produces the dispatch and the fields that `Handle` gives |
| `RespondProperties.BypassDoesNothing` | app/application.ts:83 | `ctx.respond === false` means no action and no field change |
| `RespondProperties.ClosedDoesNothing` | app/application.ts:86 | a non-writable context means no action and no field change, for any body, status or method |
| `RespondProperties.EmptyStatusEndsEmpty` | app/application.ts:92-96 | for an empty-body status, for any method and any body, the body becomes null, the response ends without data, and length and type are untouched |
| `RespondProperties.HeadSendsNoBody` | app/application.ts:98-103 | HEAD ends without data; since `isJSON` (lines 76-78) accepts every body, length becomes the byte length of the body's JSON exactly when headers were not sent; an unmeasurable JSON throws and changes nothing |
| `RespondProperties.HeadWithNullishBody` | app/application.ts:98-103 | HEAD before headers are sent: an `undefined` body throws ERR_INVALID_ARG_TYPE; a `null` body records length 4 |
| `RespondProperties.NullishBodySendsFallback` | app/application.ts:106-113 | a null or undefined body sends the message, or the status in decimal when the message is empty; before headers are sent the type becomes 'text' and the length is the number of bytes sent |
| `RespondProperties.StatusTextForServerError` | app/application.ts:106-113 | status 500 with no body and no message sends "500" with length 3 and type 'text' |
| `RespondProperties.VerbatimBodies` | app/application.ts:116-118 | a buffer is sent byte for byte and a string as its UTF-8 bytes, with no field change; a stream is piped |
| `RespondProperties.JsonBody` | app/application.ts:121-125 | any other body sends its JSON text; its byte length is recorded exactly when headers were not sent; the failure cases throw |
| `RespondProperties.RecordedLengthMatchesBytesSent` | app/application.ts:106-125 | whenever `respond` records a length and sends data, that length equals the number of bytes sent; for buffers and strings the length is left as it was |
| `RespondProperties.RespondFaultsAreReported` | app/application.ts:48 | every exception `respond` raises itself would be reported by `onerror` |
| `RespondProperties.DefaultStatusIsNotFound` | app/application.ts:133 | the status before `handleRequest` never influences the result, because it is overwritten with 404 |
| `RespondProperties.UntouchedRequestIsNotFound` | app/application.ts:133-139 | with `respond` applied to `ctx` (the corrected `handleRequest`) and the composed chain, a non-HEAD request with no body and an empty message is answered "404" with length 3 and type 'text' (as written: see `StubChainNeverResponds`) |
| `RespondProperties.StubChainNeverResponds` | app/application.ts:137-139 | as written, with the chain `compose` returns (lines 40-44: it fulfils at once with `undefined` and changes nothing), every request ends in a TypeError in the catch handler, and no response is sent |
| `RespondProperties.StubChainIsServed` | app/application.ts:137-139 | with `respond` applied to `ctx`, the composed chain gets the response `respond` computes at status 404 |
| `Decimal.DecimalRoundTrip` | app/application.ts:107 | the decimal text of any integer status reads back as that integer |
| `Decimal.DecimalByteLength` | app/application.ts:107-110 | the decimal text is non-empty ASCII, so its byte length is its number of characters |
| `Utf8.ByteLength` | app/application.ts:110 | the byte length of a string lies between its number of characters and four times that |
| `Utf8.Encode` | app/application.ts:112 | the bytes written for a string number exactly `ByteLength` of it |

## Findings

| source | as written | input that shows it | evidently intended | confidence | as-written member | corrected member |
|---|---|---|---|---|---|---|
| app/application.ts:137-139 | `.then(onrespond)` passes `respond` the value the middleware promise fulfils with, not `ctx`; with `compose` that value is `undefined`, so `respond` throws reading `.respond` of it | any request, since `compose` returns `Promise.resolve()` | `respond` is called on the request's context (`.then(() => this.respond(ctx))`) | high (not executed) | `RespondProperties.StubChainNeverResponds` | `RespondProperties.StubChainIsServed` |

`Application.Handle` and `Application.Context.HandleRequest` follow the
corrected behaviour. `Application.HandleAsWritten` keeps the code as written.

## Left out

- `listen` and `callback` (app/application.ts:144-162) bind Node's HTTP server and register an event listener. They are I/O and plumbing.
- `createContext` (app/application.ts:57-73) only links prototype objects. The `Context` class takes its fields directly.
- The middleware composition algorithm does not exist in the source. Only the stub's behaviour is modelled (`ComposeStub`). The chain is a parameter of `Handle`.
- Promise scheduling in `handleRequest` is not modelled. The settled chain is given as a value.
- `ctx.onerror` is not defined in app/context.ts. `./request` and `./response` are not part of this model. The model records which error reaches the catch handler (`Caught`) but not what that handler does.
- The `console.error` output of `onerror` and its line indenting are diagnostic I/O. Only the suppression test is modelled.
- The model assumes Koa-style delegation of `ctx.status`, `ctx.writable`, `ctx.method`, `ctx.message`, `ctx.body`, `ctx.length` and `ctx.type` to the request and response objects. `./request` and `./response` are not part of this model, and app/context.ts defines none of these fields. In particular, `res.statusCode` (set at line 133) is taken to be the `ctx.status` that `respond` reads at line 89. Without that delegation an untouched context has `status` and `writable` undefined, and `respond` would return at line 86. `DefaultStatusIsNotFound` and `UntouchedRequestIsNotFound` rest on this assumption.
- The setters of `./response` are modelled as plain field writes. Any headers they would also write are not modelled.
- `Application.HandleAsWritten`: fulfilment values other than `ctx` and `undefined` are not represented. A `null` value throws as `undefined` does. Any other value whose `writable` is falsy (every primitive, and objects without that property) makes `respond` return at line 83 or 86 without action. An object with a truthy `writable` goes further, usually throwing when it uses its missing `res`, and is not represented. The stub `compose` only ever fulfils with `undefined`.
- `Utf8.ByteLength` and `Utf8.Encode`: JavaScript strings are UTF-16 code units and may hold an unpaired surrogate. `Buffer.byteLength` counts one as 3 bytes and `res.end` writes it as EF BF BD. A Dafny `char` is a Unicode scalar value and cannot hold one, so such strings are not modelled.
- The contents of `statuses.empty` (from `./statutses`) and the results of `JSON.stringify` are parameters. No particular table or serialiser is assumed.
- Stream piping has no byte count. The outcome `Pipe` carries no data.
- Values other than buffers, strings, streams, `null` and `undefined` are represented by an opaque handle (`Obj`). Their JSON text comes only from the stringify parameter.
- `Application.Reports`: an error's status is modelled as an optional integer. The source's loose `404 == err.status` also suppresses a status given as the string "404", and that case is not modelled.
- `RespondProperties.NullishBodySendsFallback`: `ctx.message` is modelled as a string, with the empty string as its only falsy value. A non-string truthy message is not modelled.
- `Decimal.DecimalRoundTrip`: `String(n)` switches to exponent notation from 10^21 upward. Statuses that are not whole numbers are not modelled either. The model writes plain digits for every integer.
- `Application.JsonByteLength`: `Buffer.byteLength(undefined)` throws as in current Node releases. Very old releases measured the text "undefined" instead.
