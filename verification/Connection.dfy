/**
 * A proxied WebSocket from upgrade to end: the handshake, LXD's POST, the connection to LXD, and
 * the two pumps under `gather`, interleaved in any order with closes and failures at any point.
 */
module Connection {
  import opened Wrappers
  import opened Sessions
  import opened Relay

  datatype Endpoint = Exec | Console | Events

  function Need(endpoint: Endpoint): Role {
    if endpoint == Events then Viewer else Operator
  }

  /** What the handler does to the client's socket and to LXD; `Report` sends an error text. */
  datatype Action =
    | Accept | Post | Report | Close(code: int) | ToLxd(frame: Frame) | ToClient(frame: Frame)

  /** In `Reporting`, `always` says that the close is in a `finally` and happens even if the report fails. */
  datatype Phase = Fresh | Posting | Connecting | Relaying | Reporting(always: bool) | Closing | Finished

  /** The reply to the POST: an error, an operation with no secret, or an operation with one. */
  datatype PostReply = PostFails | NoSecret | Secret

  datatype Conn = Conn(endpoint: Endpoint, phase: Phase, up: Up, down: Down, pumping: bool, trace: seq<Action>)

  /** A handshake consults the session state of its moment; the other events are what awaits return. */
  datatype Event =
    | Shake(session: State, token: Presented)
    | PostReplies(reply: PostReply)
    | Connects(ok: bool)
    | Upward(up: UpEvent)
    | Downward(down: DownEvent)
    | GatherReturns
    | GatherRaises
    | Reports(ok: bool)
    | Closes

  function Open(endpoint: Endpoint): Conn {
    Conn(endpoint, Fresh, Up(Waiting, [], []), Down(Waiting, [], []), false, [])
  }

  function Forwards(c: Conn): bool {
    c.endpoint != Events
  }

  function Do(c: Conn, action: Action, phase: Phase): Conn {
    c.(phase := phase, trace := c.trace + [action])
  }

  /** The token and role check: accept, or close with the code for the failure. */
  function Greeting(endpoint: Endpoint, session: State, token: Presented): (action: Action)
    ensures action == Accept || action == Close(4401) || action == Close(4403)
  {
    match Require(SocketUser(session, token), Need(endpoint))
    case Failure(status) => Close(if status == 403 then 4403 else 4401)
    case Success(_) => Accept
  }

  /** What the handler is seen to do when a pump meets an event. */
  function UpActions(u: Up, e: UpEvent): seq<Action> {
    if u.pump.Holding? && e.Sent? then [ToLxd(u.pump.frame)] else []
  }

  function DownActions(d: Down, e: DownEvent): seq<Action> {
    if d.pump.Holding? && e.Delivered? then [ToClient(d.pump.frame)] else []
  }

  /** The client's disconnect has been received. */
  predicate ClientGone(u: Up) {
    u.received != [] && u.received[|u.received| - 1] == Disconnect
  }

  /** LXD's stream has ended; a pump that ended over a frame it could not deliver says nothing of that. */
  predicate LxdGone(d: Down) {
    d.pump == Ended(None)
  }

  /** A send to LXD raises once LXD's stream has ended. */
  function UpMet(d: Down, e: UpEvent): UpEvent {
    if LxdGone(d) && e.Sent? then SendRaises else e
  }

  /** A send to the client raises once it has disconnected, or the handler has closed the socket. */
  function DownMet(u: Up, closed: bool, e: DownEvent): DownEvent {
    if (ClientGone(u) || closed) && e.Delivered? then DeliveryRaises else e
  }

  function Step(c: Conn, e: Event): Conn {
    match e
    case Shake(session, token) =>
      if c.phase != Fresh then c else
      var greeting := Greeting(c.endpoint, session, token);
      Do(c, greeting, if greeting != Accept then Finished else if c.endpoint == Events then Connecting else Posting)
    case PostReplies(reply) =>
      if c.phase != Posting then c
      else Do(c, Post, if reply == Secret then Connecting else Reporting(false))
    case Connects(ok) =>
      if c.phase != Connecting then c
      else if ok then c.(phase := Relaying, pumping := true) else c.(phase := Reporting(true))
    case Upward(up) =>
      if c.phase != Relaying then c
      else
        var met := UpMet(c.down, up);
        c.(up := UpStep(Forwards(c), c.up, met), trace := c.trace + UpActions(c.up, met))
    // gather does not cancel this pump when the other one raises
    case Downward(down) =>
      if !c.pumping then c
      else
        var met := DownMet(c.up, c.phase == Finished, down);
        c.(down := DownStep(c.down, met), trace := c.trace + DownActions(c.down, met))
    case GatherReturns =>
      if c.phase == Relaying && c.up.pump.Ended? && c.down.pump.Ended? then c.(phase := Finished) else c
    case GatherRaises =>
      if c.phase == Relaying && c.up.pump.Raised? then c.(phase := Reporting(true)) else c
    case Reports(ok) =>
      if !c.phase.Reporting? then c
      else Do(c, Report, if ok || c.phase.always then Closing else Finished)
    case Closes =>
      if c.phase != Closing then c else Do(c, Close(1011), Finished)
  }

  function At(endpoint: Endpoint, es: seq<Event>, n: nat): Conn
    requires n <= |es|
  {
    if n == 0 then Open(endpoint) else Step(At(endpoint, es, n - 1), es[n - 1])
  }

  // ---- The language of traces ----

  /** How far a trace has come; `Wrong` is reached by an action out of place. */
  datatype Stage = Untouched | Rejected | Accepted | Posted | Reported | Closed | Wrong

  function Advance(endpoint: Endpoint, stage: Stage, action: Action): Stage {
    match stage
    case Untouched =>
      if action == Accept then Accepted
      else if action == Close(4401) || action == Close(4403) then Rejected else Wrong
    case Accepted =>
      if endpoint != Events then if action == Post then Posted else Wrong
      else if action.ToClient? then Accepted
      else if action == Report then Reported else Wrong
    case Posted =>
      if action.ToClient? || action.ToLxd? then Posted
      else if action == Report then Reported else Wrong
    case Reported =>
      if action == Close(1011) then Closed else if action.ToClient? then Reported else Wrong
    case _ => Wrong
  }

  function Scan(endpoint: Endpoint, trace: seq<Action>): Stage {
    if trace == [] then Untouched
    else Advance(endpoint, Scan(endpoint, trace[..|trace| - 1]), trace[|trace| - 1])
  }

  /** The frames among the actions that went up, and those that went down. */
  function SentUp(trace: seq<Action>): seq<Frame> {
    if trace == [] then [] else
    var last := trace[|trace| - 1];
    SentUp(trace[..|trace| - 1]) + if last.ToLxd? then [last.frame] else []
  }

  function SentDown(trace: seq<Action>): seq<Frame> {
    if trace == [] then [] else
    var last := trace[|trace| - 1];
    SentDown(trace[..|trace| - 1]) + if last.ToClient? then [last.frame] else []
  }

  lemma OneMoreAction(endpoint: Endpoint, trace: seq<Action>, action: Action)
    ensures Scan(endpoint, trace + [action]) == Advance(endpoint, Scan(endpoint, trace), action)
    ensures SentUp(trace + [action]) == SentUp(trace) + if action.ToLxd? then [action.frame] else []
    ensures SentDown(trace + [action]) == SentDown(trace) + if action.ToClient? then [action.frame] else []
  {
    assert (trace + [action])[..|trace|] == trace;
  }

  // ---- The invariant ----

  /** The stage at which frames may flow. */
  function Flowing(endpoint: Endpoint): Stage {
    if endpoint == Events then Accepted else Posted
  }

  /** The stage a connection is at, told from its phase and its pumps. */
  predicate InStage(c: Conn, stage: Stage) {
    match c.phase
    case Fresh => stage == Untouched && !c.pumping
    case Posting => stage == Accepted && c.endpoint != Events && !c.pumping
    case Connecting => stage == Flowing(c.endpoint) && !c.pumping
    case Relaying => stage == Flowing(c.endpoint) && c.pumping
    case Reporting(always) => stage == Flowing(c.endpoint) && (c.pumping ==> always && c.up.pump.Raised?)
    case Closing => stage == Reported && (c.pumping ==> c.up.pump.Raised?)
    case Finished =>
      if c.pumping then
        || (stage == Flowing(c.endpoint) && c.up.pump.Ended? && c.down.pump.Ended?)
        || (stage == Closed && c.up.pump.Raised?)
      else stage == Rejected || stage == Reported || stage == Closed
  }

  /** The pumps lose and reorder nothing, and the trace shows what they passed on. */
  ghost predicate FramesMatch(c: Conn) {
    && UpConserves(Forwards(c), c.up) && DownConserves(c.down)
    && SentUp(c.trace) == c.up.sent && SentDown(c.trace) == c.down.delivered
  }

  /** The invariant of every run. */
  ghost predicate Inv(c: Conn) {
    InStage(c, Scan(c.endpoint, c.trace)) && FramesMatch(c)
  }

  /** A trace extended by at most one action. */
  lemma Extended(endpoint: Endpoint, trace: seq<Action>, actions: seq<Action>)
    requires |actions| <= 1
    ensures actions == [] ==> trace + actions == trace
    ensures actions != [] ==>
              && Scan(endpoint, trace + actions) == Advance(endpoint, Scan(endpoint, trace), actions[0])
              && SentUp(trace + actions) == SentUp(trace) + (if actions[0].ToLxd? then [actions[0].frame] else [])
              && SentDown(trace + actions)
                 == SentDown(trace) + (if actions[0].ToClient? then [actions[0].frame] else [])
  {
    if actions != [] {
      assert actions == [actions[0]];
      OneMoreAction(endpoint, trace, actions[0]);
    }
  }

  lemma UpActionsShow(u: Up, trace: seq<Action>, forwards: bool, e: UpEvent)
    requires SentUp(trace) == u.sent
    ensures SentUp(trace + UpActions(u, e)) == UpStep(forwards, u, e).sent
    ensures SentDown(trace + UpActions(u, e)) == SentDown(trace)
  {
    if UpActions(u, e) == [] {
      assert trace + [] == trace;
    } else {
      OneMoreAction(Exec, trace, UpActions(u, e)[0]);
    }
  }

  lemma DownActionsShow(d: Down, trace: seq<Action>, e: DownEvent)
    requires SentDown(trace) == d.delivered
    ensures SentDown(trace + DownActions(d, e)) == DownStep(d, e).delivered
    ensures SentUp(trace + DownActions(d, e)) == SentUp(trace)
  {
    if DownActions(d, e) == [] {
      assert trace + [] == trace;
    } else {
      OneMoreAction(Exec, trace, DownActions(d, e)[0]);
    }
  }

  lemma UpwardKeepsFrames(c: Conn, e: UpEvent)
    requires FramesMatch(c) && c.phase == Relaying
    ensures FramesMatch(Step(c, Upward(e)))
  {
    UpStepConserves(Forwards(c), c.up, UpMet(c.down, e));
    UpActionsShow(c.up, c.trace, Forwards(c), UpMet(c.down, e));
  }

  lemma UpwardKeepsStage(c: Conn, e: UpEvent)
    requires c.phase == Relaying && InStage(c, Scan(c.endpoint, c.trace)) && UpConserves(Forwards(c), c.up)
    ensures InStage(Step(c, Upward(e)), Scan(c.endpoint, Step(c, Upward(e)).trace))
  {
    Extended(c.endpoint, c.trace, UpActions(c.up, UpMet(c.down, e)));
    assert c.up.pump.Holding? ==> Forwards(c);
  }

  lemma DownwardKeepsFrames(c: Conn, e: DownEvent)
    requires FramesMatch(c) && c.pumping
    ensures FramesMatch(Step(c, Downward(e)))
  {
    var met := DownMet(c.up, c.phase == Finished, e);
    DownStepConserves(c.down, met);
    DownActionsShow(c.down, c.trace, met);
  }

  lemma DownwardKeepsStage(c: Conn, e: DownEvent)
    requires c.pumping && InStage(c, Scan(c.endpoint, c.trace))
    ensures InStage(Step(c, Downward(e)), Scan(c.endpoint, Step(c, Downward(e)).trace))
  {
    Extended(c.endpoint, c.trace, DownActions(c.down, DownMet(c.up, c.phase == Finished, e)));
  }

  lemma OneActionKeepsFrames(c: Conn, c': Conn, action: Action)
    requires FramesMatch(c) && !action.ToLxd? && !action.ToClient?
    requires c'.up == c.up && c'.down == c.down && c'.endpoint == c.endpoint && c'.trace == c.trace + [action]
    ensures FramesMatch(c')
    ensures Scan(c'.endpoint, c'.trace) == Advance(c.endpoint, Scan(c.endpoint, c.trace), action)
  {
    OneMoreAction(c.endpoint, c.trace, action);
  }

  /** One action other than a frame, which suits the stage the new phase is for. */
  lemma ActionKeepsInv(c: Conn, action: Action, phase: Phase)
    requires Inv(c) && !action.ToLxd? && !action.ToClient?
    requires InStage(Do(c, action, phase), Advance(c.endpoint, Scan(c.endpoint, c.trace), action))
    ensures Inv(Do(c, action, phase))
  {
    OneActionKeepsFrames(c, Do(c, action, phase), action);
  }

  lemma ShakeKeepsInv(c: Conn, session: State, token: Presented)
    requires Inv(c)
    ensures Inv(Step(c, Shake(session, token)))
  {
    if c.phase == Fresh {
      ActionKeepsInv(c, Greeting(c.endpoint, session, token), Step(c, Shake(session, token)).phase);
    }
  }

  lemma PostKeepsInv(c: Conn, reply: PostReply)
    requires Inv(c)
    ensures Inv(Step(c, PostReplies(reply)))
  {
    if c.phase == Posting {
      ActionKeepsInv(c, Post, if reply == Secret then Connecting else Reporting(false));
    }
  }

  lemma ReportKeepsInv(c: Conn, ok: bool)
    requires Inv(c)
    ensures Inv(Step(c, Reports(ok)))
  {
    if c.phase.Reporting? {
      ActionKeepsInv(c, Report, if ok || c.phase.always then Closing else Finished);
    }
  }

  lemma CloseKeepsInv(c: Conn)
    requires Inv(c)
    ensures Inv(Step(c, Closes))
  {
    if c.phase == Closing {
      ActionKeepsInv(c, Close(1011), Finished);
    }
  }

  lemma UpwardKeepsInv(c: Conn, e: UpEvent)
    requires Inv(c)
    ensures Inv(Step(c, Upward(e)))
  {
    if c.phase == Relaying {
      UpwardKeepsStage(c, e);
      UpwardKeepsFrames(c, e);
    }
  }

  lemma DownwardKeepsInv(c: Conn, e: DownEvent)
    requires Inv(c)
    ensures Inv(Step(c, Downward(e)))
  {
    if c.pumping {
      DownwardKeepsStage(c, e);
      DownwardKeepsFrames(c, e);
    }
  }

  /** Events that change the phase only. */
  lemma PhaseKeepsInv(c: Conn, e: Event)
    requires Inv(c) && (e.Connects? || e.GatherReturns? || e.GatherRaises?)
    ensures Inv(Step(c, e))
  {
    assert Step(c, e).trace == c.trace && Step(c, e).up == c.up && Step(c, e).down == c.down;
  }

  lemma StepKeepsInv(c: Conn, e: Event)
    requires Inv(c)
    ensures Inv(Step(c, e))
  {
    match e
    case Upward(up) => UpwardKeepsInv(c, up);
    case Downward(down) => DownwardKeepsInv(c, down);
    case Shake(session, token) => ShakeKeepsInv(c, session, token);
    case PostReplies(reply) => PostKeepsInv(c, reply);
    case Reports(ok) => ReportKeepsInv(c, ok);
    case Closes => CloseKeepsInv(c);
    case _ => PhaseKeepsInv(c, e);
  }

  lemma OpenHasInv(endpoint: Endpoint)
    ensures Inv(Open(endpoint))
  {
  }

  /** What every step keeps holds in every later state of a run. */
  lemma {:induction false} KeptByRuns(keeps: Conn -> bool, endpoint: Endpoint, es: seq<Event>, m: nat, n: nat)
    requires m <= n <= |es| && keeps(At(endpoint, es, m))
    requires forall c, e :: keeps(c) ==> keeps(Step(c, e))
    ensures keeps(At(endpoint, es, n))
    decreases n - m
  {
    if m < n {
      KeptByRuns(keeps, endpoint, es, m, n - 1);
    }
  }

  lemma StateKeepsInv(endpoint: Endpoint, es: seq<Event>, n: nat)
    requires n <= |es|
    ensures Inv(At(endpoint, es, n))
  {
    OpenHasInv(endpoint);
    forall c, e | Inv(c)
      ensures Inv(Step(c, e))
    {
      StepKeepsInv(c, e);
    }
    KeptByRuns(c => Inv(c), endpoint, es, 0, n);
  }

  lemma {:induction false} SameEndpoint(endpoint: Endpoint, es: seq<Event>, n: nat)
    requires n <= |es|
    ensures At(endpoint, es, n).endpoint == endpoint
  {
    if n > 0 {
      SameEndpoint(endpoint, es, n - 1);
    }
  }

  lemma RunKeepsInv(endpoint: Endpoint, es: seq<Event>, n: nat)
    requires n <= |es|
    ensures Inv(At(endpoint, es, n)) && At(endpoint, es, n).endpoint == endpoint
  {
    StateKeepsInv(endpoint, es, n);
    SameEndpoint(endpoint, es, n);
  }

  // ---- What every trace obeys ----

  /** A prefix of a trace is never further on, and never wrong unless the whole is. */
  lemma {:induction false} ScanPrefix(endpoint: Endpoint, trace: seq<Action>, i: nat)
    requires i <= |trace| && Scan(endpoint, trace) != Wrong
    ensures Scan(endpoint, trace[..i]) != Wrong
    ensures Scan(endpoint, trace[..i]).Closed? || Scan(endpoint, trace[..i]).Rejected? ==> i == |trace|
    decreases |trace| - i
  {
    if i == |trace| {
      assert trace[..i] == trace;
    } else {
      ScanPrefix(endpoint, trace, i + 1);
      assert trace[..i + 1][..i] == trace[..i];
    }
  }

  /** The first two actions, read off the stage. */
  lemma {:induction false} Opening(endpoint: Endpoint, trace: seq<Action>)
    requires Scan(endpoint, trace) != Wrong
    ensures Scan(endpoint, trace).Untouched? <==> trace == []
    ensures !Scan(endpoint, trace).Untouched? && !Scan(endpoint, trace).Rejected? ==> trace[0] == Accept
    ensures Scan(endpoint, trace).Rejected? ==> |trace| == 1
    ensures Scan(endpoint, trace).Posted? ==> endpoint != Events
    ensures Scan(endpoint, trace).Accepted? && endpoint != Events ==> |trace| == 1
    ensures var stage := Scan(endpoint, trace);
            endpoint != Events && (stage.Posted? || stage.Reported? || stage.Closed?) ==>
              |trace| > 1 && trace[1] == Post
  {
    if trace != [] {
      Opening(endpoint, trace[..|trace| - 1]);
    }
  }

  /** The action at position `i` was in place after the actions before it. */
  lemma ActionInPlace(endpoint: Endpoint, trace: seq<Action>, i: nat)
    requires i < |trace| && Scan(endpoint, trace) != Wrong
    ensures Scan(endpoint, trace[..i]) != Wrong && Scan(endpoint, trace[..i + 1]) != Wrong
    ensures Scan(endpoint, trace[..i + 1]) == Advance(endpoint, Scan(endpoint, trace[..i]), trace[i])
  {
    ScanPrefix(endpoint, trace, i);
    ScanPrefix(endpoint, trace, i + 1);
    assert trace[..i + 1][..i] == trace[..i];
  }

  lemma TraceOrder(endpoint: Endpoint, trace: seq<Action>, i: nat)
    requires i < |trace| && Scan(endpoint, trace) != Wrong
    ensures trace[i] == Accept ==> i == 0
    ensures trace[i] == Post ==> i == 1 && endpoint != Events
    ensures trace[i] != Accept && !trace[i].Close? ==> trace[0] == Accept
    ensures (trace[i].ToLxd? || trace[i].ToClient?) && endpoint != Events ==> i > 1 && trace[1] == Post
    ensures endpoint == Events ==> !trace[i].ToLxd?
  {
    ActionInPlace(endpoint, trace, i);
    Opening(endpoint, trace[..i]);
  }

  /**
   * In every run, whatever fails and whenever: the accept comes first and only once, the POST
   * only second, every report and frame after the accept and, on exec and console, every frame
   * after the POST; the events endpoint posts nothing and sends LXD nothing.
   */
  lemma HandshakeOrder(endpoint: Endpoint, es: seq<Event>, n: nat, i: nat)
    requires n <= |es| && i < |At(endpoint, es, n).trace|
    ensures var trace := At(endpoint, es, n).trace;
            && (trace[i] == Accept ==> i == 0)
            && (trace[i] == Post ==> i == 1 && endpoint != Events)
            && (trace[i] != Accept && !trace[i].Close? ==> trace[0] == Accept)
            && ((trace[i].ToLxd? || trace[i].ToClient?) && endpoint != Events ==> i > 1 && trace[1] == Post)
            && (endpoint == Events ==> !trace[i].ToLxd?)
  {
    RunKeepsInv(endpoint, es, n);
    TraceOrder(endpoint, At(endpoint, es, n).trace, i);
  }

  lemma CloseIsLast(endpoint: Endpoint, trace: seq<Action>, i: nat)
    requires i < |trace| && trace[i].Close? && Scan(endpoint, trace) != Wrong
    ensures i == |trace| - 1
  {
    ActionInPlace(endpoint, trace, i);
    ScanPrefix(endpoint, trace, i + 1);
  }

  /**
   * The handler closes the socket at most once, and nothing whatever follows: no report, no frame
   * either way, though gather leaves the downward pump running and LXD may go on sending.
   */
  lemma NothingAfterClose(endpoint: Endpoint, es: seq<Event>, n: nat, i: nat)
    requires n <= |es| && i < |At(endpoint, es, n).trace| && At(endpoint, es, n).trace[i].Close?
    ensures i == |At(endpoint, es, n).trace| - 1
  {
    RunKeepsInv(endpoint, es, n);
    CloseIsLast(endpoint, At(endpoint, es, n).trace, i);
  }

  /** The token resolves to an active user, and on exec and console to one stored as an operator or an admin. */
  predicate Authorised(endpoint: Endpoint, session: State, token: Presented) {
    var user := SocketUser(session, token);
    && user.Success? && user.value in session.rows && user.value.active
    && (endpoint != Events ==> user.value.role in {"operator", "admin"})
  }

  lemma AcceptStep(c: Conn, e: Event)
    requires Accept !in c.trace && Accept in Step(c, e).trace
    ensures e.Shake? && Authorised(c.endpoint, e.session, e.token)
  {
    if e.Shake? && SocketUser(e.session, e.token).Success? {
      GuardAdmitsExactly(SocketUser(e.session, e.token).value, Operator);
    }
  }

  /**
   * A socket is accepted only for a token that, in the session state of that moment, resolves to
   * an active user, and on exec and console to one stored as an operator or an admin.
   */
  lemma {:induction false} AcceptedOnlyWithRole(endpoint: Endpoint, es: seq<Event>, n: nat) returns (m: nat)
    requires n <= |es| && Accept in At(endpoint, es, n).trace
    ensures m < n && es[m].Shake? && Authorised(endpoint, es[m].session, es[m].token)
  {
    var c := At(endpoint, es, n - 1);
    if Accept in c.trace {
      m := AcceptedOnlyWithRole(endpoint, es, n - 1);
    } else {
      m := n - 1;
      SameEndpoint(endpoint, es, m);
      AcceptStep(c, es[m]);
    }
  }

  /**
   * In every interleaving the frames sent to LXD are the non-empty contents of the client's
   * messages, and the frames sent to the client those of LXD: same kinds, same order, complete
   * but for at most the one frame that the pump holds or dropped when it ended.
   */
  lemma RelayKeepsOrder(endpoint: Endpoint, es: seq<Event>, n: nat, c: Conn)
    requires n <= |es| && c == At(endpoint, es, n)
    ensures c.down.arrived == SentDown(c.trace) + InHand(c.down.pump)
    ensures Contents(c.up.received) == SentUp(c.trace) + InHand(c.up.pump) || endpoint == Events
    ensures SentUp(c.trace) == [] || endpoint != Events
  {
    RunKeepsInv(endpoint, es, n);
  }

  /**
   * What the client's messages amount to: in every run of exec or console the frames sent to LXD, with
   * the one in hand, are one for each message received with a text or bytes that are not empty, in
   * order, the text if there is one and else the bytes.
   */
  lemma RelaySendsContent(endpoint: Endpoint, es: seq<Event>, n: nat, c: Conn) returns (at: seq<nat>)
    requires n <= |es| && c == At(endpoint, es, n) && endpoint != Events
    ensures CarriedAt(SentUp(c.trace) + InHand(c.up.pump), c.up.received, at)
  {
    RunKeepsInv(endpoint, es, n);
    at := ContentsAreCarried(c.up.received);
  }

  /**
   * What becomes of a message, from any waiting upward pump: its non-empty text, or else its non-empty
   * bytes, are sent to LXD, as long as LXD's stream lasts; the events endpoint sends nothing.
   */
  lemma MessageGoesUp(c: Conn, text: Option<string>, bytes: Option<Bytes>)
    requires c.phase == Relaying && c.up.pump == Waiting && c.down.pump != Ended(None)
    ensures var taken := Step(c, Upward(Received(Receive(text, bytes))));
            var sent := Step(taken, Upward(Sent));
            && sent.up.pump == Waiting && sent.up.received == c.up.received + [Receive(text, bytes)]
            && sent.trace
               == if c.endpoint == Events then c.trace
                  else if text != None && text != Some("") then c.trace + [ToLxd(TextFrame(text.value))]
                  else if bytes != None && bytes != Some([]) then c.trace + [ToLxd(BinaryFrame(bytes.value))]
                  else c.trace
  {
    assert c.trace + [] == c.trace;
  }

  /** What becomes of a frame of LXD's, from any waiting downward pump: it is delivered, to a client still there. */
  lemma FrameGoesDown(c: Conn, frame: Frame)
    requires c.pumping && c.phase != Finished && c.down.pump == Waiting && !ClientGone(c.up)
    ensures var delivered := Step(Step(c, Downward(Arrived(frame))), Downward(Delivered));
            && delivered.trace == c.trace + [ToClient(frame)]
            && delivered.down.pump == Waiting && delivered.down.arrived == c.down.arrived + [frame]
  {
    assert c.trace + [] == c.trace;
  }

  /** An exception upwards, in receiving or in sending, is reported and the socket closed with 1011. */
  lemma UpwardFailureCloses(c: Conn, e: UpEvent, ok: bool)
    requires c.phase == Relaying
    requires (c.up.pump == Waiting && e == ReceiveRaises) || (c.up.pump.Holding? && e == SendRaises)
    ensures var raised := Step(Step(c, Upward(e)), GatherRaises);
            && Step(Step(raised, Reports(ok)), Closes).trace == c.trace + [Report] + [Close(1011)]
            && Step(Step(raised, Reports(ok)), Closes).phase == Finished
  {
    assert c.trace + [] == c.trace;
  }

  /** The ordinary ends of the pumps, the second after the first, finish the handler without a close. */
  lemma OrdinaryEnds(c: Conn, up: UpEvent, down: DownEvent)
    requires c.phase == Relaying && c.pumping && c.up.pump == Waiting
    requires up == Received(Disconnect) || up == ReceiveStops
    requires (c.down.pump == Waiting && down == StreamEnds) || (c.down.pump.Holding? && down == DeliveryRaises)
    ensures var upFirst := Step(Step(Step(c, Upward(up)), Downward(down)), GatherReturns);
            var downFirst := Step(Step(Step(c, Downward(down)), Upward(up)), GatherReturns);
            && upFirst.phase == Finished && upFirst.trace == c.trace
            && downFirst.phase == Finished && downFirst.trace == c.trace
  {
    assert c.trace + [] == c.trace;
  }

  /**
   * Once the pumps have started the handler ends in one of two ways only: both pumps have ended
   * and it has closed nothing itself, or the upward pump raised and it has closed with 1011.
   */
  lemma HandlerEnds(endpoint: Endpoint, es: seq<Event>, n: nat)
    requires n <= |es| && At(endpoint, es, n).pumping && At(endpoint, es, n).phase == Finished
    ensures var c := At(endpoint, es, n);
            || (c.up.pump.Ended? && c.down.pump.Ended? && forall i :: 0 <= i < |c.trace| ==> !c.trace[i].Close?)
            || (c.up.pump.Raised? && c.trace != [] && c.trace[|c.trace| - 1] == Close(1011))
  {
    RunKeepsInv(endpoint, es, n);
    FinishedRelay(At(endpoint, es, n));
  }

  lemma FinishedRelay(c: Conn)
    requires InStage(c, Scan(c.endpoint, c.trace)) && c.pumping && c.phase == Finished
    ensures || (c.up.pump.Ended? && c.down.pump.Ended? && forall i :: 0 <= i < |c.trace| ==> !c.trace[i].Close?)
            || (c.up.pump.Raised? && c.trace != [] && c.trace[|c.trace| - 1] == Close(1011))
  {
    if Scan(c.endpoint, c.trace) == Closed {
      ClosedLast(c.endpoint, c.trace);
    } else {
      NoCloseYet(c.endpoint, c.trace);
    }
  }

  lemma ClosedLast(endpoint: Endpoint, trace: seq<Action>)
    requires Scan(endpoint, trace) == Closed
    ensures trace != [] && trace[|trace| - 1] == Close(1011)
  {
  }

  lemma {:induction false} NoCloseYet(endpoint: Endpoint, trace: seq<Action>)
    requires Scan(endpoint, trace) == Untouched || Scan(endpoint, trace) == Accepted || Scan(endpoint, trace) == Posted
    ensures forall i :: 0 <= i < |trace| ==> !trace[i].Close?
  {
    if trace != [] {
      NoCloseYet(endpoint, trace[..|trace| - 1]);
    }
  }

  // ---- When a relay ends ----

  /** The events that take a handler from its upgrade into the relay. */
  function Entering(endpoint: Endpoint, session: State, token: Presented): seq<Event> {
    if endpoint == Events then [Shake(session, token), Connects(true)]
    else [Shake(session, token), PostReplies(Secret), Connects(true)]
  }

  function Entered(endpoint: Endpoint): Conn {
    Conn(endpoint, Relaying, Up(Waiting, [], []), Down(Waiting, [], []), true,
         if endpoint == Events then [Accept] else [Accept, Post])
  }

  lemma {:induction false} AtPrefix(endpoint: Endpoint, es: seq<Event>, more: seq<Event>, n: nat)
    requires n <= |es|
    ensures At(endpoint, es + more, n) == At(endpoint, es, n)
  {
    if n > 0 {
      AtPrefix(endpoint, es, more, n - 1);
    }
  }

  lemma AtNext(endpoint: Endpoint, es: seq<Event>, e: Event)
    ensures At(endpoint, es + [e], |es| + 1) == Step(At(endpoint, es, |es|), e)
  {
    AtPrefix(endpoint, es, [e], |es|);
  }

  /** The relay is entered in some run of every endpoint, by every user who may. */
  lemma RelayIsEntered(endpoint: Endpoint, session: State, token: Presented)
    requires Greeting(endpoint, session, token) == Accept
    ensures var es := Entering(endpoint, session, token);
            At(endpoint, es, |es|) == Entered(endpoint)
  {
    var es := Entering(endpoint, session, token);
    assert At(endpoint, es, 0) == Open(endpoint);
    var shaken := At(endpoint, es, 1);
    assert shaken == Step(Open(endpoint), es[0]) && shaken.trace == [Accept];
    assert At(endpoint, es, 2) == Step(shaken, es[1]);
    if endpoint != Events {
      assert At(endpoint, es, 2).trace == [Accept, Post];
      assert At(endpoint, es, 3) == Step(At(endpoint, es, 2), es[2]);
    }
  }

  /**
   * A relay can be left, whatever happens next, exactly when the upward pump has raised or both
   * pumps have ended. One side closing is not enough.
   */
  lemma RelayEndsExactly(c: Conn)
    requires c.phase == Relaying
    ensures (exists e :: Step(c, e).phase != Relaying)
            <==> c.up.pump.Raised? || (c.up.pump.Ended? && c.down.pump.Ended?)
  {
    if c.up.pump.Raised? {
      assert Step(c, GatherRaises).phase != Relaying;
    } else if c.up.pump.Ended? && c.down.pump.Ended? {
      assert Step(c, GatherReturns).phase != Relaying;
    }
  }

  /** The client leaves first: the handler stays, having done nothing but accept and post. */
  lemma ClientLeavesFirst(endpoint: Endpoint, session: State, token: Presented) returns (es: seq<Event>)
    requires Greeting(endpoint, session, token) == Accept
    ensures var c := At(endpoint, es, |es|);
            && ClientGone(c.up) && c.down == Down(Waiting, [], []) && c.trace == Entered(endpoint).trace
            && c.phase == Relaying && forall e :: Step(c, e).phase == Relaying
  {
    RelayIsEntered(endpoint, session, token);
    es := Entering(endpoint, session, token);
    var c := Entered(endpoint);
    es, c := Happens(endpoint, es, c, Upward(Received(Disconnect)));
    assert c.trace == Entered(endpoint).trace;
    RelayEndsExactly(c);
  }

  /** LXD leaves first: the handler stays, having done nothing but accept and post. */
  lemma LxdLeavesFirst(endpoint: Endpoint, session: State, token: Presented) returns (es: seq<Event>)
    requires Greeting(endpoint, session, token) == Accept
    ensures var c := At(endpoint, es, |es|);
            && LxdGone(c.down) && c.up == Up(Waiting, [], []) && c.trace == Entered(endpoint).trace
            && c.phase == Relaying && forall e :: Step(c, e).phase == Relaying
  {
    RelayIsEntered(endpoint, session, token);
    es := Entering(endpoint, session, token);
    var c := Entered(endpoint);
    es, c := Happens(endpoint, es, c, Downward(StreamEnds));
    assert c.trace == Entered(endpoint).trace;
    RelayEndsExactly(c);
  }

  // ---- After one side has gone ----

  /** A disconnect has ended the upward pump, and only gather's return is left to happen. */
  predicate OnlyReturnLeft(c: Conn) {
    ClientGone(c.up) ==> c.up.pump.Ended? && (c.phase == Relaying || c.phase == Finished)
  }

  lemma StepKeepsOnlyReturn(c: Conn, e: Event)
    requires OnlyReturnLeft(c) && (c.up.received != [] ==> c.pumping) && (c.phase == Relaying ==> c.pumping)
    ensures var c' := Step(c, e);
            OnlyReturnLeft(c') && (c'.up.received != [] ==> c'.pumping) && (c'.phase == Relaying ==> c'.pumping)
  {
  }

  lemma {:induction false} RunKeepsOnlyReturn(endpoint: Endpoint, es: seq<Event>, n: nat)
    requires n <= |es|
    ensures var c := At(endpoint, es, n);
            OnlyReturnLeft(c) && (c.up.received != [] ==> c.pumping) && (c.phase == Relaying ==> c.pumping)
  {
    if n > 0 {
      RunKeepsOnlyReturn(endpoint, es, n - 1);
      StepKeepsOnlyReturn(At(endpoint, es, n - 1), es[n - 1]);
    }
  }

  lemma StepKeepsGone(c: Conn, e: Event)
    requires ClientGone(c.up) && OnlyReturnLeft(c)
    ensures OnlyReturnLeft(Step(c, e)) && Step(c, e).up == c.up && Step(c, e).trace == c.trace
  {
    assert c.trace + [] == c.trace;
  }

  /** Once the client's disconnect is received the handler does nothing more, in any run: the trace stands still. */
  lemma {:induction false} NothingAfterDisconnect(endpoint: Endpoint, es: seq<Event>, m: nat, n: nat)
    requires m <= n <= |es| && ClientGone(At(endpoint, es, m).up)
    ensures At(endpoint, es, n).trace == At(endpoint, es, m).trace && At(endpoint, es, n).up == At(endpoint, es, m).up
    ensures OnlyReturnLeft(At(endpoint, es, n))
    decreases n - m
  {
    if m == n {
      RunKeepsOnlyReturn(endpoint, es, n);
    } else {
      NothingAfterDisconnect(endpoint, es, m, n - 1);
      StepKeepsGone(At(endpoint, es, n - 1), es[n - 1]);
    }
  }

  lemma StepKeepsLxdGone(c: Conn, e: Event)
    requires LxdGone(c.down)
    ensures Step(c, e).down == c.down && Step(c, e).up.sent == c.up.sent
  {
  }

  lemma {:induction false} PumpsKeepLxdGone(endpoint: Endpoint, es: seq<Event>, m: nat, n: nat)
    requires m <= n <= |es| && LxdGone(At(endpoint, es, m).down)
    ensures At(endpoint, es, n).down == At(endpoint, es, m).down
    ensures At(endpoint, es, n).up.sent == At(endpoint, es, m).up.sent
    decreases n - m
  {
    if m < n {
      PumpsKeepLxdGone(endpoint, es, m, n - 1);
      StepKeepsLxdGone(At(endpoint, es, n - 1), es[n - 1]);
    }
  }

  /** Once LXD's stream has ended no frame is sent either way, in any run. */
  lemma NoFramesAfterStreamEnd(endpoint: Endpoint, es: seq<Event>, m: nat, n: nat)
    requires m <= n <= |es| && LxdGone(At(endpoint, es, m).down)
    ensures SentUp(At(endpoint, es, n).trace) == SentUp(At(endpoint, es, m).trace)
    ensures SentDown(At(endpoint, es, n).trace) == SentDown(At(endpoint, es, m).trace)
  {
    PumpsKeepLxdGone(endpoint, es, m, n);
    RunKeepsInv(endpoint, es, m);
    RunKeepsInv(endpoint, es, n);
  }

  /**
   * A handler whose client has gone ends with LXD's stream, or with LXD's next frame, which is taken
   * and dropped: the send raises and the pump returns.
   */
  lemma ClientGoneThenEnds(endpoint: Endpoint, es: seq<Event>, n: nat, frame: Frame)
    requires n <= |es| && At(endpoint, es, n).phase == Relaying
    requires ClientGone(At(endpoint, es, n).up) && At(endpoint, es, n).down.pump == Waiting
    ensures var c := At(endpoint, es, n);
            var ended, held := Step(c, Downward(StreamEnds)), Step(c, Downward(Arrived(frame)));
            var dropped := Step(held, Downward(Delivered));
            && Step(c, GatherReturns) == c
            && Step(ended, GatherReturns).phase == Finished
            && Step(held, GatherReturns) == held && dropped.down.pump == Ended(Some(frame))
            && Step(dropped, GatherReturns).phase == Finished && dropped.trace == c.trace
  {
    RunKeepsOnlyReturn(endpoint, es, n);
    var c := At(endpoint, es, n);
    assert c.trace + [] == c.trace;
  }

  /**
   * A handler whose LXD stream has ended ends with the client's disconnect, and on exec and console
   * with the client's next message that has content: the send raises, and the socket is reported to
   * and closed with 1011. Any other message leaves it as it was, and on the events endpoint all do.
   */
  lemma LxdGoneThenEnds(endpoint: Endpoint, es: seq<Event>, n: nat, message: Message)
    requires n <= |es| && At(endpoint, es, n).phase == Relaying
    requires LxdGone(At(endpoint, es, n).down) && At(endpoint, es, n).up.pump == Waiting
    ensures var c := At(endpoint, es, n);
            var taken := Step(c, Upward(Received(message)));
            var raised := Step(Step(taken, Upward(Sent)), GatherRaises);
            if message.Disconnect? then Step(taken, GatherReturns).phase == Finished && taken.trace == c.trace
            else if endpoint != Events && Content(message).Some? then
              && raised.phase == Reporting(true)
              && forall ok :: Step(Step(raised, Reports(ok)), Closes).trace == c.trace + [Report] + [Close(1011)]
            else taken == c.(up := c.up.(received := c.up.received + [message])) && raised == taken
  {
    SameEndpoint(endpoint, es, n);
    var c := At(endpoint, es, n);
    assert c.trace + [] == c.trace;
  }

  /** A run goes on by one event. */
  lemma Happens(endpoint: Endpoint, es: seq<Event>, c: Conn, e: Event) returns (es': seq<Event>, c': Conn)
    requires At(endpoint, es, |es|) == c
    ensures es' == es + [e] && c' == Step(c, e) && At(endpoint, es', |es'|) == c'
  {
    es', c' := es + [e], Step(c, e);
    AtNext(endpoint, es, e);
  }
}
