/**
 * The outgoing HTTP response of the scriptable web server (WebServerResponse).
 *
 * A response accumulates a status code (200 by default) and a map of headers,
 * and writes to its connection in two kinds of event: one header block and any
 * number of body chunks. The connection itself belongs to the embedded HTTP
 * engine; here it is an append-only log of the events written to it.
 *
 * The module holds a pure state machine (ResponseState, Call, Apply, Run) with
 * the properties proved about it, and the class WebServerResponse whose methods
 * update their fields in place and are proved to follow that state machine.
 */
module Response {

  /** What a response writes to its connection. */
  datatype Event =
    | HeaderBlock(status: int, headers: map<string, string>)
    | Body(data: string)

  /** The whole state of one response: the fields and the connection log. */
  datatype ResponseState = ResponseState(
    status: int,
    headers: map<string, string>,
    headersSent: bool,
    log: seq<Event>)

  /** The public operations that change a response. */
  datatype Call =
    | SetStatusCode(code: int)
    | SetHeader(name: string, value: string)
    | SetHeaders(headers: map<string, string>)
    | WriteHeaders(status: int, headers: map<string, string>)
    | WriteBody(data: string)

  /** The status code of a response nobody has touched yet. */
  const DefaultStatus: int := 200

  function Initial(): ResponseState {
    ResponseState(DefaultStatus, map[], false, [])
  }

  /** The value of header `name`, or the empty string when it is not set. */
  function HeaderOf(headers: map<string, string>, name: string): string {
    if name in headers then headers[name] else ""
  }

  // ---------------------------------------------------------------------
  // The connection log and the property it must keep
  // ---------------------------------------------------------------------

  /** The only header block, if any, is the first event on the connection. */
  ghost predicate WellFormedLog(log: seq<Event>) {
    forall i :: 0 <= i < |log| ==> (log[i].HeaderBlock? <==> i == 0)
  }

  /** How many header blocks the log holds. */
  function HeaderBlockCount(log: seq<Event>): nat {
    if log == [] then 0
    else (if log[0].HeaderBlock? then 1 else 0) + HeaderBlockCount(log[1..])
  }

  /** The data of the body events, in the order they were written. */
  function BodiesOf(log: seq<Event>): seq<string> {
    if log == [] then []
    else
      var last := log[|log| - 1];
      BodiesOf(log[..|log| - 1]) + (if last.Body? then [last.data] else [])
  }

  lemma {:induction false} NoHeaderBlockAmongBodies(log: seq<Event>)
    requires forall i :: 0 <= i < |log| ==> log[i].Body?
    ensures HeaderBlockCount(log) == 0
  {
    if log != [] {
      NoHeaderBlockAmongBodies(log[1..]);
    }
  }

  lemma {:induction false} WellFormedLogCount(log: seq<Event>)
    requires WellFormedLog(log)
    ensures HeaderBlockCount(log) == if log == [] then 0 else 1
  {
    if log != [] {
      NoHeaderBlockAmongBodies(log[1..]);
    }
  }

  /**
   * The connection property: at most one header block is ever written, and
   * before every body event exactly one header block has been written.
   */
  lemma HeadersOnceBeforeBody(log: seq<Event>)
    requires WellFormedLog(log)
    ensures HeaderBlockCount(log) <= 1
    ensures forall j :: 0 <= j < |log| && log[j].Body? ==> HeaderBlockCount(log[..j]) == 1
  {
    WellFormedLogCount(log);
    forall j | 0 <= j < |log| && log[j].Body?
      ensures HeaderBlockCount(log[..j]) == 1
    {
      assert WellFormedLog(log[..j]);
      WellFormedLogCount(log[..j]);
    }
  }

  // ---------------------------------------------------------------------
  // The state machine
  // ---------------------------------------------------------------------

  /** What every reachable response state satisfies. */
  ghost predicate Consistent(s: ResponseState) {
    WellFormedLog(s.log) && (s.headersSent <==> s.log != [])
  }

  /**
   * writeHeaders: when the headers have not gone out yet, the given status and
   * headers become the response's own and are written as the header block;
   * once they have gone out, nothing happens.
   */
  function SendHeaders(s: ResponseState, status: int, headers: map<string, string>): ResponseState {
    if s.headersSent then s
    else ResponseState(status, headers, true, s.log + [HeaderBlock(status, headers)])
  }

  function Apply(s: ResponseState, c: Call): ResponseState {
    match c
    case SetStatusCode(code) => s.(status := code)
    case SetHeader(name, value) => s.(headers := s.headers[name := value])
    case SetHeaders(headers) => s.(headers := headers)
    case WriteHeaders(status, headers) => SendHeaders(s, status, headers)
    case WriteBody(data) =>
      var t := SendHeaders(s, s.status, s.headers);
      t.(log := t.log + [Body(data)])
  }

  /** The state after a sequence of calls, applied in order. */
  function Run(s: ResponseState, calls: seq<Call>): ResponseState
    decreases |calls|
  {
    if calls == [] then s
    else Apply(Run(s, calls[..|calls| - 1]), calls[|calls| - 1])
  }

  /** The data of the writeBody calls in a call sequence, in order. */
  function WrittenBodies(calls: seq<Call>): seq<string> {
    if calls == [] then []
    else
      var last := calls[|calls| - 1];
      WrittenBodies(calls[..|calls| - 1]) + (if last.WriteBody? then [last.data] else [])
  }

  predicate IsSetter(c: Call) {
    c.SetStatusCode? || c.SetHeader? || c.SetHeaders?
  }

  lemma InitialConsistent()
    ensures Consistent(Initial())
    ensures Initial().status == 200 && Initial().headers == map[]
    ensures !Initial().headersSent && Initial().log == []
  {
  }

  /** Every call keeps the log well formed and the sent flag in step with it. */
  lemma ApplyPreservesConsistent(s: ResponseState, c: Call)
    requires Consistent(s)
    ensures Consistent(Apply(s, c))
  {
  }

  /** Every call only appends to the connection log, and never unsends headers. */
  lemma ApplyAppends(s: ResponseState, c: Call)
    ensures s.log <= Apply(s, c).log
    ensures s.headersSent ==> Apply(s, c).headersSent
  {
  }

  lemma {:induction false} RunPreservesConsistent(s: ResponseState, calls: seq<Call>)
    requires Consistent(s)
    ensures Consistent(Run(s, calls))
  {
    if calls != [] {
      RunPreservesConsistent(s, calls[..|calls| - 1]);
      ApplyPreservesConsistent(Run(s, calls[..|calls| - 1]), calls[|calls| - 1]);
    }
  }

  /**
   * Across every call sequence on a fresh response: at most one header block
   * reaches the connection, it precedes every body event, and the sent flag
   * says exactly whether it has been written.
   */
  lemma AnyCallSequenceSendsHeadersOnce(calls: seq<Call>)
    ensures var t := Run(Initial(), calls);
      && HeaderBlockCount(t.log) <= 1
      && (forall j :: 0 <= j < |t.log| && t.log[j].Body? ==> HeaderBlockCount(t.log[..j]) == 1)
      && (t.headersSent <==> HeaderBlockCount(t.log) == 1)
  {
    RunPreservesConsistent(Initial(), calls);
    var t := Run(Initial(), calls);
    HeadersOnceBeforeBody(t.log);
    WellFormedLogCount(t.log);
  }

  /** Once the headers have gone out, no call sequence writes another header block. */
  lemma {:induction false} NoResendAfterCommit(s: ResponseState, calls: seq<Call>)
    requires s.headersSent
    ensures Run(s, calls).headersSent
    ensures HeaderBlockCount(Run(s, calls).log) == HeaderBlockCount(s.log)
  {
    if calls != [] {
      var p := Run(s, calls[..|calls| - 1]);
      NoResendAfterCommit(s, calls[..|calls| - 1]);
      var q := Apply(p, calls[|calls| - 1]);
      assert q.log == p.log || (exists d :: q.log == p.log + [Body(d)]);
      if q.log != p.log {
        var d :| q.log == p.log + [Body(d)];
        CountAppendBody(p.log, d);
      }
    }
  }

  lemma {:induction false} CountAppendBody(log: seq<Event>, d: string)
    ensures HeaderBlockCount(log + [Body(d)]) == HeaderBlockCount(log)
  {
    if log != [] {
      assert (log + [Body(d)])[1..] == log[1..] + [Body(d)];
      CountAppendBody(log[1..], d);
    }
  }

  /** The body reaching the connection is exactly what writeBody was given, in order. */
  lemma ApplyBodies(s: ResponseState, c: Call)
    ensures BodiesOf(Apply(s, c).log) == BodiesOf(s.log) + WrittenBodies([c])
  {
    var t := SendHeaders(s, s.status, s.headers);
    assert BodiesOf(t.log) == BodiesOf(s.log) by {
      if !s.headersSent {
        assert (s.log + [HeaderBlock(s.status, s.headers)])[..|s.log|] == s.log;
      }
    }
    if c.WriteBody? {
      assert (t.log + [Body(c.data)])[..|t.log|] == t.log;
    } else if c.WriteHeaders? && !s.headersSent {
      assert (s.log + [HeaderBlock(c.status, c.headers)])[..|s.log|] == s.log;
    }
    assert WrittenBodies([c]) == if c.WriteBody? then [c.data] else [] by {
      assert [c][..0] == [];
    }
  }

  lemma {:induction false} RunBodies(s: ResponseState, calls: seq<Call>)
    ensures BodiesOf(Run(s, calls).log) == BodiesOf(s.log) + WrittenBodies(calls)
  {
    if calls != [] {
      var init := calls[..|calls| - 1];
      var c := calls[|calls| - 1];
      RunBodies(s, init);
      ApplyBodies(Run(s, init), c);
      assert WrittenBodies([c]) == if c.WriteBody? then [c.data] else [] by {
        assert [c][..0] == [];
      }
    }
  }

  /**
   * writeBody makes sure the headers are sent beforehand: afterwards the sent
   * flag is set and the log ends with the body; on a response whose headers
   * had not gone out, the current status and headers are written first.
   */
  lemma WriteBodyCommits(s: ResponseState, d: string)
    requires Consistent(s)
    ensures var t := Apply(s, WriteBody(d));
      && t.headersSent
      && t.status == s.status && t.headers == s.headers
      && t.log[0].HeaderBlock?
      && t.log[|t.log| - 1] == Body(d)
      && (!s.headersSent ==> t.log == [HeaderBlock(s.status, s.headers), Body(d)])
      && (s.headersSent ==> t.log == s.log + [Body(d)])
  {
  }

  /** A second writeHeaders is a no-op: the first one decides what was sent. */
  lemma WriteHeadersIdempotent(s: ResponseState, c1: int, h1: map<string, string>, c2: int, h2: map<string, string>)
    ensures Apply(Apply(s, WriteHeaders(c1, h1)), WriteHeaders(c2, h2)) == Apply(s, WriteHeaders(c1, h1))
  {
  }

  /** setHeader sets one name and leaves every other name as it was. */
  lemma SetHeaderEffect(s: ResponseState, name: string, value: string, other: string)
    requires other != name
    ensures HeaderOf(Apply(s, SetHeader(name, value)).headers, name) == value
    ensures HeaderOf(Apply(s, SetHeader(name, value)).headers, other) == HeaderOf(s.headers, other)
    ensures Apply(s, SetHeader(name, value)).log == s.log
  {
  }

  /** Setters never touch the connection. */
  lemma {:induction false} SettersKeepLog(s: ResponseState, calls: seq<Call>)
    requires forall i :: 0 <= i < |calls| ==> IsSetter(calls[i])
    ensures Run(s, calls).log == s.log
    ensures Run(s, calls).headersSent == s.headersSent
  {
    if calls != [] {
      SettersKeepLog(s, calls[..|calls| - 1]);
    }
  }

  /**
   * Any run of setters followed by writeBody on a fresh response writes the
   * header block built from the last-set status and headers, then the body.
   */
  lemma SettersThenBody(calls: seq<Call>, d: string)
    requires forall i :: 0 <= i < |calls| ==> IsSetter(calls[i])
    ensures var t := Run(Initial(), calls);
      Run(Initial(), calls + [WriteBody(d)]).log == [HeaderBlock(t.status, t.headers), Body(d)]
  {
    SettersKeepLog(Initial(), calls);
    assert (calls + [WriteBody(d)])[..|calls|] == calls;
  }

  /** Status 404, one header, then a body. */
  lemma NotFoundScenario()
    ensures Run(Initial(), [SetStatusCode(404), SetHeader("Content-Type", "text/plain"), WriteBody("not found")]).log
         == [HeaderBlock(404, map["Content-Type" := "text/plain"]), Body("not found")]
  {
    var calls := [SetStatusCode(404), SetHeader("Content-Type", "text/plain"), WriteBody("not found")];
    assert calls[..2][..1][..0] == [];
    assert Run(Initial(), calls[..2][..1]) == Initial().(status := 404);
    assert Run(Initial(), calls[..2]) == Initial().(status := 404, headers := map["Content-Type" := "text/plain"]);
  }

  /** A body written on an untouched response goes out after the default header block. */
  lemma DefaultHeadersScenario(d: string)
    ensures Run(Initial(), [WriteBody(d)]).log == [HeaderBlock(200, map[]), Body(d)]
  {
    assert [WriteBody(d)][..0] == [];
  }

  // ---------------------------------------------------------------------
  // The response object
  // ---------------------------------------------------------------------

  class WebServerResponse {
    var statusCode: int
    var headers: map<string, string>
    var headersSent: bool
    /** What has been written to the connection. */
    ghost var output: seq<Event>

    ghost function State(): ResponseState
      reads this
    {
      ResponseState(statusCode, headers, headersSent, output)
    }

    ghost predicate Valid()
      reads this
    {
      Consistent(State())
    }

    constructor ()
      ensures Valid() && State() == Initial()
      ensures StatusCode() == 200
    {
      statusCode := DefaultStatus;
      headers := map[];
      headersSent := false;
      output := [];
    }

    /** Send `hs` with status `code`, unless the headers have already gone out. */
    method WriteHeaders(code: int, hs: map<string, string>)
      requires Valid()
      modifies this
      ensures Valid() && State() == Apply(old(State()), Call.WriteHeaders(code, hs))
      ensures headersSent && HeaderBlockCount(output) == 1
    {
      if !headersSent {
        statusCode := code;
        headers := hs;
        headersSent := true;
        output := output + [HeaderBlock(code, hs)];
      }
      WellFormedLogCount(output);
    }

    /** Send `data`, sending the current status and headers beforehand if need be. */
    method WriteBody(data: string)
      requires Valid()
      modifies this
      ensures Valid() && State() == Apply(old(State()), Call.WriteBody(data))
      ensures headersSent && output[0].HeaderBlock?
      ensures !old(headersSent) ==> output == [HeaderBlock(statusCode, headers), Body(data)]
      ensures output[|output| - 1] == Body(data)
      ensures old(headersSent) ==> output == old(output) + [Body(data)]
    {
      if !headersSent {
        WriteHeaders(statusCode, headers);
      }
      output := output + [Body(data)];
    }

    /** The currently set status code; what it is after each call is stated by the constructor and the setters. */
    function StatusCode(): int
      reads this
    {
      statusCode
    }

    method SetStatusCode(code: int)
      requires Valid()
      modifies this
      ensures Valid() && State() == Apply(old(State()), Call.SetStatusCode(code))
      ensures StatusCode() == code
    {
      statusCode := code;
    }

    /** The value of header `name`, empty when it is not set. */
    function Header(name: string): string
      reads this
    {
      HeaderOf(headers, name)
    }

    method SetHeader(name: string, value: string)
      requires Valid()
      modifies this
      ensures Valid() && State() == Apply(old(State()), Call.SetHeader(name, value))
      ensures Header(name) == value
      ensures forall other :: other != name ==> Header(other) == old(Header(other))
    {
      headers := headers[name := value];
    }

    /** All headers currently set. */
    function Headers(): map<string, string>
      reads this
    {
      headers
    }

    method SetHeaders(hs: map<string, string>)
      requires Valid()
      modifies this
      ensures Valid() && State() == Apply(old(State()), Call.SetHeaders(hs))
      ensures Headers() == hs
    {
      headers := hs;
    }
  }

  /**
   * A handler answering 404 through the response object: setting the status
   * and a header and then writing the body puts exactly one header block,
   * carrying both, on the connection, followed by the body.
   */
  method NotFoundHandler() returns (r: WebServerResponse)
    ensures r.Valid()
    ensures r.output == [HeaderBlock(404, map["Content-Type" := "text/plain"]), Body("not found")]
    ensures r.StatusCode() == 404 && r.Header("Content-Type") == "text/plain"
  {
    r := new WebServerResponse();
    r.SetStatusCode(404);
    r.SetHeader("Content-Type", "text/plain");
    r.WriteBody("not found");
  }
}
