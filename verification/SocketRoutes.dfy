/**
 * The WebSocket handlers as they run, from the token check to the end of the relay. Each is proved
 * to leave the trace of the connection machine under the same outcomes of its awaits.
 */
module SocketRoutes {
  import Sessions
  import opened Relay
  import opened Connection

  /** The client's socket, with a record of what the handler has done. */
  class Socket {
    var trace: seq<Action>

    constructor ()
      ensures trace == []
    {
      trace := [];
    }

    method Record(action: Action)
      modifies this
      ensures trace == old(trace) + [action]
    {
      trace := trace + [action];
    }
  }

  /** The machine run over a list of events. */
  function Run(c: Conn, es: seq<Event>): Conn {
    if es == [] then c else Step(Run(c, es[..|es| - 1]), es[|es| - 1])
  }

  /** A schedule of what the two pumps meet. */
  predicate PumpEvents(es: seq<Event>) {
    forall i :: 0 <= i < |es| ==> es[i].Upward? || es[i].Downward?
  }

  /**
   * The outcomes of a handler's awaits: what the POST and the connection to LXD give, what the pumps
   * meet under `gather`, and, if that raises, what the surviving pump meets before the report and
   * between it and the close.
   */
  datatype Fate = Fate(post: PostReply, connects: bool, relay: seq<Event>,
                       late: seq<Event>, reports: bool, later: seq<Event>) {
    predicate Valid() {
      PumpEvents(relay) && PumpEvents(late) && PumpEvents(later)
    }
  }

  /** The rest of a handler whose relay raised, or that never came to a relay. */
  function Tail(fate: Fate): seq<Event> {
    [GatherRaises] + fate.late + [Reports(fate.reports)] + fate.later + [Closes]
  }

  /** From the end of the events that pumps meet under `gather` to the end of the handler. */
  function Ended(c: Conn, fate: Fate): Conn {
    if c.phase == Relaying && !c.up.pump.Raised? then Step(c, GatherReturns) else Run(c, Tail(fate))
  }

  /**
   * The machine under one choice of outcomes. An event that is out of turn changes nothing, so
   * the same list serves a handshake that is refused, a POST that fails, and a full relay.
   */
  function Handled(endpoint: Endpoint, session: Sessions.State, token: Sessions.Presented, fate: Fate): Conn {
    var posted := Step(Step(Open(endpoint), Shake(session, token)), PostReplies(fate.post));
    Ended(Run(Step(posted, Connects(fate.connects)), fate.relay), fate)
  }

  lemma {:induction false} RunConcat(c: Conn, a: seq<Event>, b: seq<Event>)
    ensures Run(c, a + b) == Run(Run(c, a), b)
  {
    if b == [] {
      assert a + b == a;
    } else {
      RunConcat(c, a, b[..|b| - 1]);
      assert (a + b)[..|a + b| - 1] == a + b[..|b| - 1];
    }
  }

  lemma {:induction false} RunIsAt(endpoint: Endpoint, es: seq<Event>, n: nat)
    requires n <= |es|
    ensures Run(Open(endpoint), es[..n]) == At(endpoint, es, n)
  {
    if n > 0 {
      RunIsAt(endpoint, es, n - 1);
      assert es[..n][..n - 1] == es[..n - 1];
    }
  }

  lemma RunOne(c: Conn, e: Event)
    ensures Run(c, [e]) == Step(c, e)
  {
    assert [e][..0] == [];
  }

  lemma RunTwo(c: Conn, e: Event, e': Event)
    ensures Run(c, [e, e']) == Step(Step(c, e), e')
  {
    RunOne(c, e);
    assert [e, e'][..1] == [e];
  }

  /** What a handler does is a run of the connection machine, so all that holds of runs holds of it. */
  lemma HandledIsARun(endpoint: Endpoint, session: Sessions.State, token: Sessions.Presented, fate: Fate)
    returns (script: seq<Event>)
    ensures Handled(endpoint, session, token, fate) == At(endpoint, script, |script|)
  {
    var c := Open(endpoint);
    var shake, rest := [Shake(session, token)], [PostReplies(fate.post), Connects(fate.connects)];
    RunConcat(c, shake + rest, fate.relay);
    RunConcat(c, shake, rest);
    RunOne(c, shake[0]);
    RunTwo(Run(c, shake), rest[0], rest[1]);
    var start := shake + rest + fate.relay;
    var relayed := Run(c, start);
    var end := if relayed.phase == Relaying && !relayed.up.pump.Raised? then [GatherReturns] else Tail(fate);
    RunOne(relayed, GatherReturns);
    RunConcat(c, start, end);
    script := start + end;
    RunIsAt(endpoint, script, |script|);
    assert script[..|script|] == script;
  }

  /** The tail of a handler, event by event. */
  lemma TailSteps(c: Conn, fate: Fate)
    ensures Run(c, Tail(fate))
            == Step(Run(Step(Run(Step(c, GatherRaises), fate.late), Reports(fate.reports)), fate.later), Closes)
  {
    var raised, report, close := [GatherRaises], [Reports(fate.reports)], [Closes];
    RunConcat(c, raised + fate.late + report + fate.later, close);
    RunConcat(c, raised + fate.late + report, fate.later);
    RunConcat(c, raised + fate.late, report);
    RunConcat(c, raised, fate.late);
    RunOne(c, GatherRaises);
    RunOne(Run(c, raised + fate.late), report[0]);
    RunOne(Run(c, raised + fate.late + report + fate.later), Closes);
  }

  /** A run of pump events before or after the relay phase changes nothing. */
  lemma {:induction false} NoPumpsNoChange(c: Conn, es: seq<Event>)
    requires PumpEvents(es) && !c.pumping && c.phase != Relaying
    ensures Run(c, es) == c
  {
    if es != [] {
      NoPumpsNoChange(c, es[..|es| - 1]);
    }
  }

  /** A connection whose pumps have not started. */
  function Ready(endpoint: Endpoint, phase: Phase, trace: seq<Action>): Conn {
    Conn(endpoint, phase, Up(Waiting, [], []), Down(Waiting, [], []), false, trace)
  }

  /** The role check that opens all three handlers; it closes the socket unless the user passes. */
  method Admit(ws: Socket, endpoint: Endpoint, session: Sessions.State, token: Sessions.Presented) returns (ok: bool)
    requires ws.trace == []
    modifies ws
    ensures var shaken := Step(Open(endpoint), Shake(session, token));
            ws.trace == shaken.trace && ok == (shaken.phase != Finished)
  {
    if token.Absent? {
      ws.Record(Close(4401));
      return false;
    }
    var user := Sessions.SocketUser(session, token);
    if user.Failure? {
      ws.Record(Close(4401));
      return false;
    }
    if !Sessions.ParseRole(user.value.role).AtLeast(Need(endpoint)) {
      ws.Record(Close(4403));
      return false;
    }
    ws.Record(Accept);
    return true;
  }

  /** A connection whose pumps have started. */
  function Pumping(endpoint: Endpoint, phase: Phase, up: Up, down: Down, trace: seq<Action>): Conn {
    Conn(endpoint, phase, up, down, true, trace)
  }

  /** The upward pump meets one event. */
  method TurnUp(ws: Socket, endpoint: Endpoint, up: Up, down: Down, e: UpEvent) returns (next: Up)
    modifies ws
    ensures Pumping(endpoint, Relaying, next, down, ws.trace)
            == Step(Pumping(endpoint, Relaying, up, down, old(ws.trace)), Upward(e))
  {
    var met := UpMet(down, e);
    next := UpStep(endpoint != Events, up, met);
    assert ws.trace + [] == ws.trace;
    if up.pump.Holding? && met.Sent? {
      ws.Record(ToLxd(up.pump.frame));
    }
  }

  method TurnDown(ws: Socket, endpoint: Endpoint, ghost phase: Phase, up: Up, down: Down, e: DownEvent)
    returns (next: Down)
    requires phase != Finished
    modifies ws
    ensures Pumping(endpoint, phase, up, next, ws.trace)
            == Step(Pumping(endpoint, phase, up, down, old(ws.trace)), Downward(e))
  {
    var met := DownMet(up, false, e);
    next := DownStep(down, met);
    assert ws.trace + [] == ws.trace;
    if down.pump.Holding? && met.Delivered? {
      ws.Record(ToClient(down.pump.frame));
    }
  }

  /** The downward pump runs on by itself after `gather` has raised. */
  method RunOn(ws: Socket, endpoint: Endpoint, ghost phase: Phase, up: Up, down: Down, es: seq<Event>)
    returns (next: Down)
    requires PumpEvents(es) && phase != Finished && phase != Relaying
    modifies ws
    ensures Pumping(endpoint, phase, up, next, ws.trace) == Run(Pumping(endpoint, phase, up, down, old(ws.trace)), es)
  {
    next := down;
    ghost var start := Pumping(endpoint, phase, up, down, ws.trace);
    var i := 0;
    while i < |es|
      invariant 0 <= i <= |es|
      invariant Pumping(endpoint, phase, up, next, ws.trace) == Run(start, es[..i])
    {
      if es[i].Downward? {
        next := TurnDown(ws, endpoint, phase, up, next, es[i].down);
      }
      assert es[..i + 1][..i] == es[..i];
      i := i + 1;
    }
    assert es[..i] == es;
  }

  /** The two pumps under `gather`. */
  method Pump(ws: Socket, endpoint: Endpoint, relay: seq<Event>) returns (up: Up, down: Down)
    requires PumpEvents(relay)
    modifies ws
    ensures Pumping(endpoint, Relaying, up, down, ws.trace)
            == Run(Pumping(endpoint, Relaying, Up(Waiting, [], []), Down(Waiting, [], []), old(ws.trace)), relay)
  {
    up, down := Up(Waiting, [], []), Down(Waiting, [], []);
    ghost var start := Pumping(endpoint, Relaying, up, down, ws.trace);
    var i := 0;
    while i < |relay|
      invariant 0 <= i <= |relay|
      invariant Pumping(endpoint, Relaying, up, down, ws.trace) == Run(start, relay[..i])
    {
      if relay[i].Upward? {
        up := TurnUp(ws, endpoint, up, down, relay[i].up);
      } else {
        down := TurnDown(ws, endpoint, Relaying, up, down, relay[i].down);
      }
      assert relay[..i + 1][..i] == relay[..i];
      i := i + 1;
    }
    assert relay[..i] == relay;
  }

  /** The exception path: a report, and the close in its `finally`, while the other pump runs on. */
  method ReportFailure(ws: Socket, endpoint: Endpoint, up: Up, down: Down, fate: Fate)
    requires fate.Valid() && up.pump.Raised?
    modifies ws
    ensures ws.trace == Run(Pumping(endpoint, Relaying, up, down, old(ws.trace)), Tail(fate)).trace
  {
    TailSteps(Pumping(endpoint, Relaying, up, down, ws.trace), fate);
    var surviving := RunOn(ws, endpoint, Reporting(true), up, down, fate.late);
    ws.Record(Report);
    surviving := RunOn(ws, endpoint, Closing, up, surviving, fate.later);
    ws.Record(Close(1011));
  }

  /** `gather` over the two pumps, then the handler's exception path. */
  method Gather(ws: Socket, endpoint: Endpoint, fate: Fate)
    requires fate.Valid()
    modifies ws
    ensures var start := Pumping(endpoint, Relaying, Up(Waiting, [], []), Down(Waiting, [], []), old(ws.trace));
            ws.trace == Ended(Run(start, fate.relay), fate).trace
  {
    ghost var start := Pumping(endpoint, Relaying, Up(Waiting, [], []), Down(Waiting, [], []), ws.trace);
    var up, down := Pump(ws, endpoint, fate.relay);
    if up.pump.Raised? {
      ReportFailure(ws, endpoint, up, down, fate);
    }
  }

  lemma QuietTail(c: Conn, fate: Fate)
    requires fate.Valid() && !c.pumping && (c.phase.Reporting? || c.phase == Finished)
    ensures Run(c, Tail(fate)) == Step(Step(c, Reports(fate.reports)), Closes)
  {
    TailSteps(c, fate);
    assert Step(c, GatherRaises) == c;
    NoPumpsNoChange(c, fate.late);
    var reported := Step(c, Reports(fate.reports));
    assert !reported.pumping && reported.phase != Relaying;
    NoPumpsNoChange(reported, fate.later);
  }

  /** The socket was closed, or is about to be, before any pump started. */
  lemma TailWithoutPumps(c: Conn, fate: Fate)
    requires fate.Valid() && !c.pumping && (c.phase.Reporting? || c.phase == Finished)
    ensures Ended(Run(c, fate.relay), fate) == Step(Step(c, Reports(fate.reports)), Closes)
  {
    NoPumpsNoChange(c, fate.relay);
    QuietTail(c, fate);
  }

  /** A report and then the close, which the `finally` of some callers makes sure of. */
  method ReportAndClose(ws: Socket, ghost c: Conn, always: bool, fate: Fate)
    requires fate.Valid() && !c.pumping && c.phase == Reporting(always) && c.trace == ws.trace
    modifies ws
    ensures ws.trace == Ended(Run(c, fate.relay), fate).trace
  {
    TailWithoutPumps(c, fate);
    ws.Record(Report);
    if fate.reports || always {
      ws.Record(Close(1011));
    }
  }

  /** Connecting to LXD's socket, and relaying if that succeeds. */
  method Connect(ws: Socket, endpoint: Endpoint, fate: Fate)
    requires fate.Valid()
    modifies ws
    ensures var ready := Ready(endpoint, Connecting, old(ws.trace));
            ws.trace == Ended(Run(Step(ready, Connects(fate.connects)), fate.relay), fate).trace
  {
    if !fate.connects {
      ReportAndClose(ws, Ready(endpoint, Reporting(true), ws.trace), true, fate);
      return;
    }
    Gather(ws, endpoint, fate);
  }

  /** `_proxy_exec_ws`, after the POST has been answered without error. */
  method ProxyExecWs(ws: Socket, endpoint: Endpoint, secret: bool, fate: Fate)
    requires fate.Valid() && endpoint != Events
    modifies ws
    ensures var posted := Ready(endpoint, if secret then Connecting else Reporting(false), old(ws.trace));
            ws.trace == Ended(Run(Step(posted, Connects(fate.connects)), fate.relay), fate).trace
  {
    if !secret {
      ReportAndClose(ws, Ready(endpoint, Reporting(false), ws.trace), false, fate);
      return;
    }
    Connect(ws, endpoint, fate);
  }

  /** The rest of an exec or console handler, once the client has been accepted. */
  method PostAndProxy(ws: Socket, endpoint: Endpoint, fate: Fate)
    requires fate.Valid() && endpoint != Events
    modifies ws
    ensures var posted := Step(Ready(endpoint, Posting, old(ws.trace)), PostReplies(fate.post));
            ws.trace == Ended(Run(Step(posted, Connects(fate.connects)), fate.relay), fate).trace
  {
    ws.Record(Post);
    if fate.post.PostFails? {
      ReportAndClose(ws, Ready(endpoint, Reporting(false), ws.trace), false, fate);
      return;
    }
    ProxyExecWs(ws, endpoint, fate.post.Secret?, fate);
  }

  /** `exec_ws` and, with its own endpoint, `console_ws`: token, role, accept, POST, proxy. */
  method ExecWs(ws: Socket, endpoint: Endpoint, session: Sessions.State, token: Sessions.Presented, fate: Fate)
    requires ws.trace == [] && fate.Valid() && endpoint != Events
    modifies ws
    ensures ws.trace == Handled(endpoint, session, token, fate).trace
  {
    var ok := Admit(ws, endpoint, session, token);
    if ok {
      PostAndProxy(ws, endpoint, fate);
    } else {
      TailWithoutPumps(Step(Open(endpoint), Shake(session, token)), fate);
    }
  }

  /** `operations_ws`: no POST, and a viewer may connect. */
  method OperationsWs(ws: Socket, session: Sessions.State, token: Sessions.Presented, fate: Fate)
    requires ws.trace == [] && fate.Valid()
    modifies ws
    ensures ws.trace == Handled(Events, session, token, fate).trace
  {
    var ok := Admit(ws, Events, session, token);
    if ok {
      Connect(ws, Events, fate);
    } else {
      TailWithoutPumps(Step(Open(Events), Shake(session, token)), fate);
    }
  }

  lemma Shaken(endpoint: Endpoint, session: Sessions.State, token: Sessions.Presented)
    ensures var greeting := Greeting(endpoint, session, token);
            Step(Open(endpoint), Shake(session, token))
            == Ready(endpoint,
                     if greeting != Accept then Finished else if endpoint == Events then Connecting else Posting,
                     [greeting])
  {
  }

  lemma Posted(endpoint: Endpoint, reply: PostReply)
    ensures Step(Ready(endpoint, Posting, [Accept]), PostReplies(reply))
            == Ready(endpoint, if reply == Secret then Connecting else Reporting(false), [Accept, Post])
  {
  }

  lemma ReportedOnly(endpoint: Endpoint, always: bool, greeted: seq<Action>, fate: Fate)
    requires fate.Valid()
    ensures Ended(Run(Ready(endpoint, Reporting(always), greeted), fate.relay), fate).trace
            == greeted + [Report] + if fate.reports || always then [Close(1011)] else []
  {
    TailWithoutPumps(Ready(endpoint, Reporting(always), greeted), fate);
  }

  lemma ConnectOutcome(endpoint: Endpoint, greeted: seq<Action>, fate: Fate)
    requires fate.Valid()
    ensures var ready := Step(Ready(endpoint, Connecting, greeted), Connects(fate.connects));
            if fate.connects then
              ready == Pumping(endpoint, Relaying, Up(Waiting, [], []), Down(Waiting, [], []), greeted)
            else Ended(Run(ready, fate.relay), fate).trace == greeted + [Report] + [Close(1011)]
  {
    if !fate.connects {
      ReportedOnly(endpoint, true, greeted, fate);
    }
  }

  /** A refused handshake, and an accepted one up to its connection to LXD. */
  lemma Begun(endpoint: Endpoint, session: Sessions.State, token: Sessions.Presented, fate: Fate)
    requires fate.Valid()
    ensures var greeting := Greeting(endpoint, session, token);
            var posted := Step(Step(Open(endpoint), Shake(session, token)), PostReplies(fate.post));
            posted == if greeting != Accept then Ready(endpoint, Finished, [greeting])
                      else if endpoint == Events then Ready(endpoint, Connecting, [Accept])
                      else Ready(endpoint, if fate.post == Secret then Connecting else Reporting(false), [Accept, Post])
  {
    Shaken(endpoint, session, token);
    Posted(endpoint, fate.post);
  }

  /**
   * What a handler does, read off the outcomes of its awaits. Refused, it only closes. Otherwise it
   * accepts; exec and console then post. Without a secret it reports, and closes with 1011 unless
   * the report fails; without a connection to LXD it reports, and closes whatever becomes of the
   * report; with both it is in the relay, from its beginning.
   */
  lemma HandlerOutcome(endpoint: Endpoint, session: Sessions.State, token: Sessions.Presented, fate: Fate)
    requires fate.Valid()
    ensures var c, greeting := Handled(endpoint, session, token, fate), Greeting(endpoint, session, token);
            var greeted := if endpoint == Events then [Accept] else [Accept, Post];
            if greeting != Accept then c.trace == [greeting]
            else if endpoint != Events && fate.post != Secret then
              c.trace == greeted + [Report] + if fate.reports then [Close(1011)] else []
            else if !fate.connects then c.trace == greeted + [Report] + [Close(1011)]
            else c == Ended(Run(Conn(endpoint, Relaying, Up(Waiting, [], []), Down(Waiting, [], []), true, greeted),
                                fate.relay), fate)
  {
    var greeting := Greeting(endpoint, session, token);
    var greeted := if endpoint == Events then [Accept] else [Accept, Post];
    Begun(endpoint, session, token, fate);
    if greeting != Accept {
      TailWithoutPumps(Ready(endpoint, Finished, [greeting]), fate);
    } else if endpoint != Events && fate.post != Secret {
      ReportedOnly(endpoint, false, greeted, fate);
    } else {
      ConnectOutcome(endpoint, greeted, fate);
    }
  }

  /** After the raise the surviving pump can only add frames for the client. */
  lemma {:induction false} OnlyDeliveries(c: Conn, es: seq<Event>) returns (frames: seq<Action>)
    requires PumpEvents(es) && c.pumping && c.phase != Relaying
    ensures forall i :: 0 <= i < |frames| ==> frames[i].ToClient?
    ensures Run(c, es) == c.(down := Run(c, es).down, trace := c.trace + frames)
  {
    if es == [] {
      frames := [];
      assert c.trace + [] == c.trace;
    } else {
      frames := OnlyDeliveries(c, es[..|es| - 1]);
      var before, e := Run(c, es[..|es| - 1]), es[|es| - 1];
      if e.Downward? {
        var more := DownActions(before.down, DownMet(before.up, before.phase == Finished, e.down));
        assert c.trace + frames + more == c.trace + (frames + more);
        frames := frames + more;
      }
    }
  }

  /**
   * How a relay ends the handler. If the upward pump has raised, it reports and closes with 1011,
   * whatever becomes of the report, and only frames for the client come in between; if both pumps
   * have ended it has finished with nothing more done; and otherwise it is still relaying.
   */
  lemma RelayOutcome(c: Conn, fate: Fate) returns (late: seq<Action>, later: seq<Action>)
    requires fate.Valid() && c.phase == Relaying && c.pumping
    ensures forall i :: 0 <= i < |late| ==> late[i].ToClient?
    ensures forall i :: 0 <= i < |later| ==> later[i].ToClient?
    ensures var end := Ended(c, fate);
            if c.up.pump.Raised? then
              end.phase == Finished && end.trace == c.trace + late + [Report] + later + [Close(1011)]
            else if c.up.pump.Ended? && c.down.pump.Ended? then end == c.(phase := Finished)
            else end == c
  {
    late, later := [], [];
    if c.up.pump.Raised? {
      TailSteps(c, fate);
      var raised := Step(c, GatherRaises);
      late := OnlyDeliveries(raised, fate.late);
      var reported := Step(Run(raised, fate.late), Reports(fate.reports));
      later := OnlyDeliveries(reported, fate.later);
    }
  }
}
