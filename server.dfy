/**
 * The listen/close lifecycle of the scriptable web server (WebServer).
 *
 * The server keeps the port it listens on (empty when closed) and the context
 * the embedded HTTP engine handed back when it was started. The engine itself
 * is not modelled: whether starting it on a port succeeds, and the context it
 * returns, are an input of ListenOnPort, and every start and stop the server
 * asks of it is recorded in a log of engine calls.
 */
module Server {

  datatype Option<T> = None | Some(value: T)

  /** An opaque engine context, as returned by a successful start. */
  datatype Context = Context(id: nat)

  /** What the server asks of the engine. */
  datatype EngineCall =
    | Start(port: string, result: Option<Context>)
    | Stop(ctx: Context)

  datatype ServerState = ServerState(port: string, ctx: Option<Context>, engine: seq<EngineCall>)

  /** The public operations that change a server. */
  datatype Call =
    | ListenOnPort(port: string, started: Option<Context>)
    | Close

  function Initial(): ServerState {
    ServerState("", None, [])
  }

  /** The contexts running after the engine has been given call `e`. */
  function AfterCall(running: set<Context>, e: EngineCall): set<Context> {
    match e
    case Start(_, result) => if result.Some? then running + {result.value} else running
    case Stop(ctx) => running - {ctx}
  }

  /** The contexts the engine has started and not yet been asked to stop. */
  function Live(engine: seq<EngineCall>): set<Context> {
    if engine == [] then {}
    else AfterCall(Live(engine[..|engine| - 1]), engine[|engine| - 1])
  }

  /**
   * What every reachable server state satisfies: a closed server reports no
   * port, and the engine runs exactly the one context the server holds.
   */
  ghost predicate Consistent(s: ServerState) {
    && (s.ctx.None? ==> s.port == "")
    && Live(s.engine) == (if s.ctx.Some? then {s.ctx.value} else {})
  }

  /** close(): a listening server stops its engine context and forgets its port. */
  function CloseServer(s: ServerState): ServerState {
    if s.ctx.Some? then ServerState("", None, s.engine + [Stop(s.ctx.value)])
    else s
  }

  /**
   * listenOnPort(port): close first, then ask the engine to start on `port`;
   * `started` is the engine's answer.
   */
  function Listen(s: ServerState, port: string, started: Option<Context>): ServerState {
    var c := CloseServer(s);
    if started.Some? then ServerState(port, started, c.engine + [Start(port, started)])
    else c.(engine := c.engine + [Start(port, started)])
  }

  function Apply(s: ServerState, c: Call): ServerState {
    match c
    case ListenOnPort(port, started) => Listen(s, port, started)
    case Close => CloseServer(s)
  }

  function Run(s: ServerState, calls: seq<Call>): ServerState
    decreases |calls|
  {
    if calls == [] then s
    else Apply(Run(s, calls[..|calls| - 1]), calls[|calls| - 1])
  }

  lemma LiveAppend(engine: seq<EngineCall>, e: EngineCall)
    ensures Live(engine + [e]) == AfterCall(Live(engine), e)
  {
    assert (engine + [e])[..|engine|] == engine;
  }

  /** close() on a server: afterwards it is closed, reports no port and runs no context. */
  lemma CloseEffect(s: ServerState)
    requires Consistent(s)
    ensures var t := CloseServer(s);
      && Consistent(t)
      && t.ctx.None? && t.port == ""
      && Live(t.engine) == {}
  {
    if s.ctx.Some? {
      LiveAppend(s.engine, Stop(s.ctx.value));
    }
  }

  /** Calling close() a second time changes nothing. */
  lemma CloseIdempotent(s: ServerState)
    ensures CloseServer(CloseServer(s)) == CloseServer(s)
  {
  }

  /**
   * listenOnPort succeeds exactly when the engine starts; then the server
   * reports the requested port and the engine runs only the new context;
   * otherwise the server is closed and the engine runs nothing.
   */
  lemma ListenEffect(s: ServerState, port: string, started: Option<Context>)
    requires Consistent(s)
    ensures var t := Listen(s, port, started);
      && Consistent(t)
      && (t.ctx.Some? <==> started.Some?)
      && (started.Some? ==> t.port == port && t.ctx == started && Live(t.engine) == {started.value})
      && (started.None? ==> t.port == "" && Live(t.engine) == {})
  {
    var c := CloseServer(s);
    CloseEffect(s);
    LiveAppend(c.engine, Start(port, started));
  }

  lemma ApplyPreservesConsistent(s: ServerState, c: Call)
    requires Consistent(s)
    ensures Consistent(Apply(s, c))
  {
    match c
    case ListenOnPort(port, started) => ListenEffect(s, port, started);
    case Close => CloseEffect(s);
  }

  lemma {:induction false} RunPreservesConsistent(s: ServerState, calls: seq<Call>)
    requires Consistent(s)
    ensures Consistent(Run(s, calls))
  {
    if calls != [] {
      RunPreservesConsistent(s, calls[..|calls| - 1]);
      ApplyPreservesConsistent(Run(s, calls[..|calls| - 1]), calls[|calls| - 1]);
    }
  }

  /**
   * Across every sequence of listenOnPort and close calls on a new server: a
   * closed server reports the empty port and runs no engine context, and the
   * engine runs at most one context at a time, the one the server holds.
   */
  lemma AnyCallSequenceKeepsOneListener(calls: seq<Call>)
    ensures var t := Run(Initial(), calls);
      && (t.ctx.None? ==> t.port == "")
      && |Live(t.engine)| <= 1
      && (t.ctx.Some? ==> t.ctx.value in Live(t.engine))
      && (t.ctx.None? ==> Live(t.engine) == {})
  {
    RunPreservesConsistent(Initial(), calls);
  }

  // ---------------------------------------------------------------------
  // The server object
  // ---------------------------------------------------------------------

  class WebServer {
    /** The port listened on; empty when closed. */
    var port: string
    /** The engine context; None stands for the null context of a closed server. */
    var ctx: Option<Context>
    /** What the server has asked of the engine. */
    ghost var engine: seq<EngineCall>

    ghost function State(): ServerState
      reads this
    {
      ServerState(port, ctx, engine)
    }

    ghost predicate Valid()
      reads this
    {
      Consistent(State())
    }

    constructor ()
      ensures Valid() && State() == Initial()
      ensures Port() == ""
    {
      port := "";
      ctx := None;
      engine := [];
    }

    /**
     * Start listening on port `p`; `started` is the engine's answer to the start
     * request (a context, or None when it cannot listen on `p`).
     */
    method ListenOnPort(p: string, started: Option<Context>) returns (ok: bool)
      requires Valid()
      modifies this
      ensures Valid() && State() == Apply(old(State()), Call.ListenOnPort(p, started))
      ensures ok <==> started.Some?
      ensures ok <==> ctx.Some?
      ensures ok ==> Port() == p
      ensures !ok ==> Port() == ""
    {
      Close();
      engine := engine + [Start(p, started)];
      if started.None? {
        ListenEffect(old(State()), p, started);
        return false;
      }
      ctx := started;
      port := p;
      ListenEffect(old(State()), p, started);
      return true;
    }

    /** The port listened on, or the empty string when the server is closed. */
    function Port(): (p: string)
      reads this
      requires Valid()
      ensures ctx.None? ==> p == ""
      ensures p == port
    {
      port
    }

    /** Stop listening for incoming connections. */
    method Close()
      requires Valid()
      modifies this
      ensures Valid() && State() == CloseServer(old(State()))
      ensures ctx.None? && Port() == ""
    {
      CloseEffect(State());
      if ctx.Some? {
        engine := engine + [Stop(ctx.value)];
        ctx := None;
        port := "";
      }
    }
  }

  /** Closing twice leaves the server closed with no port. */
  method CloseTwice(server: WebServer)
    requires server.Valid()
    modifies server
    ensures server.Valid() && server.Port() == ""
    ensures server.State() == CloseServer(old(server.State()))
  {
    server.Close();
    server.Close();
    CloseIdempotent(old(server.State()));
  }
}
