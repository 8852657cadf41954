# PhantomJS scriptable web server: response, lifecycle and request model

This project models the three classes declared in `src/webserver.h` of PhantomJS's
scriptable HTTP server, and proves what their declarations and doc comments promise.

- `WebServerResponse` (module `Response`, file `response.dfy`) is the outgoing response.
  It holds a status code (200 by default), a map of headers and the flag `m_headersSent`.
  `writeHeaders` sends the header block. `writeBody` sends a body chunk and makes sure
  the headers went out beforehand. The connection is modelled as an append-only log of
  `HeaderBlock(status, headers)` and `Body(data)` events. The main theorem
  (`AnyCallSequenceSendsHeadersOnce`) says that, across any sequence of calls, at most
  one header block reaches the connection and it comes before every body event.
  `RunBodies` shows that the body events carry exactly the `writeBody` data, in order.
- `WebServer` (module `Server`, file `server.dfy`) is the listen/close lifecycle.
  It holds the port (`m_port`) and the engine context (`m_ctx`). `listenOnPort` returns
  whether listening succeeded. `port()` is empty whenever the server is closed.
  `close()` stops listening. What the embedded engine answers to a start request is an
  input of `ListenOnPort`. A ghost log records every start and stop asked of the engine.
  `AnyCallSequenceKeepsOneListener` proves that the engine never runs more than one
  context for a server.
- `WebServerRequest` (module `Request`, file `request.dfy`) is an immutable record of the
  parsed request with its headers in arrival order. `CollectedAll` proves that walking
  `headerName(i)`/`headerValue(i)` for `i` in `0 .. headers()-1` yields every header once,
  in order.

Each class has a pure state machine beside it: a state datatype, a `Call` datatype, `Apply`
and `Run`. The class methods are proved to move their fields exactly as `Apply` does. The
lemmas over `Run` then cover every call sequence. The getters (`statusCode()`, `header()`,
`headers()`, `port()`, and the request's `headers()`, `headerName()`, `headerValue()`) are
plain functions over the fields; what they return after each call is stated by the
constructors, the setters and the lemmas listed below.

`webserver.cpp` is not modelled. Where `src/webserver.h` leaves behaviour open, this model
decides it as follows:

- The header does not say whether a second `writeHeaders` writes again. This model makes
  it a no-op once the headers have gone out.
- `writeHeaders(code, headers)` on a response whose headers have not gone out stores
  `code` and `headers` as the response's own status and headers, writes the header block
  and sets `m_headersSent`.
- `setStatusCode`, `setHeader` and `setHeaders` always update the fields, as their doc
  comments say ("set the status code to code"), before and after the headers went out.
  A header block already on the connection is never changed by them.
- `listenOnPort` closes any current listener before starting. When the engine cannot
  listen on the port, the server stays closed and `port()` is empty.

## Model

| member | source | states |
|---|---|---|
| `Response.InitialConsistent` | src/webserver.h:155-156 | a fresh response has status 200, no headers, headers not sent and nothing on the connection |
| `Response.HeadersOnceBeforeBody` | src/webserver.h:150-153 | in a well-formed connection log there is at most one header block, and exactly one header block precedes every body event |
| `Response.ApplyPreservesConsistent` | src/webserver.h:150-168 | every response call keeps the log well formed and keeps `m_headersSent` true exactly when a header block has been written |
| `Response.ApplyAppends` | src/webserver.h:150-153 | every call only appends to the connection, and once the headers are sent they stay sent |
| `Response.RunPreservesConsistent` | src/webserver.h:150-168 | any sequence of calls keeps the invariant |
| `Response.AnyCallSequenceSendsHeadersOnce` | src/webserver.h:150-153 | for any call sequence on a fresh response: at most one header block, before every body event, and `m_headersSent` holds exactly when it was written |
| `Response.NoResendAfterCommit` | src/webserver.h:150-153 | once the headers are sent, no call sequence writes another header block |
| `Response.ApplyBodies` | src/webserver.h:152-153 | one call adds to the body stream exactly the data of `writeBody`, and nothing for the other calls |
| `Response.RunBodies` | src/webserver.h:152-153 | the body events on the connection are exactly the `writeBody` arguments, in call order |
| `Response.WriteBodyCommits` | src/webserver.h:152-153 | after `writeBody(d)` the headers are sent, the log starts with a header block and ends with `Body(d)`; on unsent headers the current status and headers go out first; otherwise only the body is added |
| `Response.WriteHeadersIdempotent` | src/webserver.h:150-151 | a second `writeHeaders` changes nothing: the first one decides what was sent |
| `Response.SetHeaderEffect` | src/webserver.h:160-163 | after `setHeader(n, v)`, `header(n)` is `v`, every other name keeps its value, and nothing is written |
| `Response.SettersThenBody` | src/webserver.h:152-168 | setters followed by `writeBody(d)` on a fresh response write one header block with the last-set status and headers, then `Body(d)` |
| `Response.NotFoundScenario` | src/webserver.h:152-163 | status 404, `Content-Type: text/plain`, then body "not found" writes exactly that header block and then that body |
| `Response.DefaultHeadersScenario` | src/webserver.h:152-156 | a body written on an untouched response goes out after a header block with status 200 and no headers |
| `Response.WebServerResponse.constructor` | src/webserver.h:147-156 | a new response is in the initial state: `statusCode()` returns 200, no headers, nothing sent |
| `Response.NotFoundHandler` | src/webserver.h:150-163 | through the response object, status 404, a `Content-Type` header and body "not found" put exactly one header block carrying both on the connection, then the body; the getters report 404 and the header |
| `Response.WebServerResponse.WriteHeaders` | src/webserver.h:150-151 | moves the state as the model's `writeHeaders`; afterwards exactly one header block is on the connection |
| `Response.WebServerResponse.WriteBody` | src/webserver.h:152-153 | moves the state as the model's `writeBody`; headers sent beforehand, body last, headers written only if they had not gone out |
| `Response.WebServerResponse.SetStatusCode` | src/webserver.h:155-158 | after `setStatusCode(c)`, `statusCode()` returns `c`; nothing else changes |
| `Response.WebServerResponse.SetHeader` | src/webserver.h:160-163 | after `setHeader(n, v)`, `header(n)` returns `v` and `header()` of every other name returns what it returned before; nothing is written |
| `Response.WebServerResponse.SetHeaders` | src/webserver.h:165-168 | after `setHeaders(m)`, `headers()` returns `m`; nothing else changes |
| `Server.CloseEffect` | src/webserver.h:72-79 | after `close()` the server is closed, `port()` is empty and the engine runs no context |
| `Server.CloseIdempotent` | src/webserver.h:78-79 | a second `close()` changes nothing |
| `Server.ListenEffect` | src/webserver.h:61-76 | `listenOnPort(p)` listens exactly when the engine starts; then `port()` is `p` and only the new context runs; otherwise the server is closed with an empty port and no context runs |
| `Server.ApplyPreservesConsistent` | src/webserver.h:61-79 | every call keeps "closed means empty port" and "the engine runs exactly the context held" |
| `Server.RunPreservesConsistent` | src/webserver.h:61-79 | any sequence of calls keeps that invariant |
| `Server.AnyCallSequenceKeepsOneListener` | src/webserver.h:72-79 | after any call sequence on a new server: a closed server reports the empty port and runs no engine context, at most one context runs, and it is the one the server holds |
| `Server.WebServer.constructor` | src/webserver.h:57 | a new server is closed, with an empty port |
| `Server.WebServer.ListenOnPort` | src/webserver.h:61-71 | returns true exactly when the engine started and the server now holds a context; on success `port()` is the requested port, on failure it is empty |
| `Server.WebServer.Port` | src/webserver.h:72-76 | under the server invariant, `port()` is the empty string whenever the server is closed |
| `Server.WebServer.Close` | src/webserver.h:78-79 | the server is closed with an empty port; the engine context, if any, is stopped |
| `Server.CloseTwice` | src/webserver.h:78-79 | closing twice has the effect of closing once |
| `Request.CollectedPrefix` | src/webserver.h:127-131 | reading names and values at indices below `k` gives the first `k` headers, in order |
| `Request.CollectedAll` | src/webserver.h:127-131 | reading `headerName(i)` and `headerValue(i)` for every index below `headers()` gives every header once, in arrival order |
| `Request.AccessorsDetermineHeaders` | src/webserver.h:129-131 | two requests whose `headers()`, `headerName(i)` and `headerValue(i)` agree at every index carry the same header list |
| `Request.CollectedSame` | src/webserver.h:129-131 | requests whose accessors agree at every index give the same headers when the first `k` indices are read |

## Left out

- The mongoose engine: `mg_context`, `mg_connection`, `mg_request_info`, its start, stop and write calls, and the `handleRequest` callback. They are foreign code. Whether the engine starts is an input of `ListenOnPort`, and a response's connection is an abstract event log.
- The `newRequest` signal and the Qt property and conversion machinery (`Q_OBJECT`, `Q_PROPERTY`, `QVariantMap`, `QString`). Plain fields, `string` and `map<string, string>` stand for them. The order of headers inside a header block is not modelled.
- The `Config` object passed to the server, and the `~WebServer` destructor. `webserver.cpp`, where their behaviour lives, is not modelled.
- The wire bytes of the status line, the reason phrases and the header lines, and any TLS suffix in the port string. `HeaderBlock` stays abstract.
- Threads of the engine's workers, and races between `listenOnPort` and `close`. Concurrency is out of scope.
- Write failures on the connection. The header declares no way to report them.
- `Request.WebServerRequest.HeaderName`, `Request.WebServerRequest.HeaderValue`: indices outside `0 .. headers()-1` are a precondition violation, since the header does not say what they return.
- The request's `statusCode()` and the other scalar accessors (`method`, `httpVersion`, `isSSL`, `url`, `queryString`, `remoteIP`, `remotePort`, `remoteUser`). They are plain fields of the request datatype, passed through from the engine as they are. The method field is called `requestMethod` because `method` is a Dafny keyword.
- Status codes, ports and header indices are `int` in the source. They are unbounded here because no arithmetic is done on them.
