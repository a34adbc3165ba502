/** What holds of tokens over whole runs: their kinds, who may use them, and where they come from. */
module TokenSafety {
  import opened Wrappers
  import opened Tokens
  import opened Sessions

  /** Even positions hold access tokens and odd ones refresh tokens, with the lifetimes of their kind. */
  function KindAt(i: nat): Kind {
    if i % 2 == 0 then Access else Refresh
  }

  ghost predicate WellShaped(config: Config, issued: seq<Claims>, i: nat)
    requires i < |issued|
  {
    exists subject, role, now :: ShapedBy(config, issued[i], i, subject, role, now)
  }

  predicate ShapedBy(config: Config, claims: Claims, i: nat, subject: string, role: string, now: int) {
    claims == if KindAt(i) == Access then AccessPayload(config, subject, role, now)
              else RefreshPayload(config, subject, now)
  }

  ghost predicate Shaped(config: Config, issued: seq<Claims>) {
    |issued| % 2 == 0 && forall i: nat :: i < |issued| ==> WellShaped(config, issued, i)
  }

  lemma PairIsShaped(config: Config, issued: seq<Claims>, user: User, now: int)
    requires Shaped(config, issued)
    ensures Shaped(config, issued + TokenPair(config, user, now))
  {
    var after := issued + TokenPair(config, user, now);
    forall i: nat | i < |after|
      ensures WellShaped(config, after, i)
    {
      if i < |issued| {
        assert WellShaped(config, issued, i);
        var subject, role, time :| ShapedBy(config, issued[i], i, subject, role, time);
        assert ShapedBy(config, after[i], i, subject, role, time);
      } else {
        assert ShapedBy(config, after[i], i, user.username, user.role, now);
      }
    }
  }

  lemma {:induction false} RunIsShaped(config: Config, s: State, es: seq<Event>, n: nat)
    requires n <= |es| && s.issued == []
    ensures Shaped(config, At(config, s, es, n).issued)
  {
    if n > 0 {
      RunIsShaped(config, s, es, n - 1);
      var t := At(config, s, es, n - 1);
      match es[n - 1]
      case Login(username, password) =>
        var user := LoginUser(t, username, password);
        if user.Success? {
          PairIsShaped(config, t.issued, user.value, t.clock);
        }
      case Renew(token) =>
        var user := RenewUser(t, token);
        if user.Success? {
          PairIsShaped(config, t.issued, user.value, t.clock);
        }
      case _ =>
    }
  }

  /** What a well-shaped token says, read off its claims. */
  lemma ShapeFacts(config: Config, issued: seq<Claims>, i: nat) returns (subject: string, now: int)
    requires Shaped(config, issued) && i < |issued|
    ensures Subject(issued[i]) == subject
    ensures "iat" in issued[i] && issued[i]["iat"] == Instant(now)
    ensures forall t :: Unexpired(issued[i], t) <==> t <= now + Lifetime(config, KindAt(i))
    ensures forall kind :: HasKind(issued[i], kind) <==> kind == KindAt(i)
  {
    assert WellShaped(config, issued, i);
    var role;
    subject, role, now :| ShapedBy(config, issued[i], i, subject, role, now);
    KindsAreExclusive(config, subject, role, now);
  }

  function IssuedAt(claims: Claims): int {
    if "iat" in claims && claims["iat"].Instant? then claims["iat"].seconds else 0
  }

  /**
   * Exactly which presented tokens pass the two guards and the refresh endpoint in any reachable
   * state: access tokens, or refresh tokens, within their lifetime, of a subject who is active
   * now. So no refresh token ever passes a guard and no access token is ever exchanged.
   */
  lemma AcceptedExactly(config: Config, s: State, es: seq<Event>, n: nat, i: nat)
    requires Start(s) && n <= |es| && i < |At(config, s, es, n).issued|
    ensures var now := At(config, s, es, n);
            var token := now.issued[i];
            var lifetime := if i % 2 == 0 then 60 * config.accessMinutes else 86400 * config.refreshDays;
            var live := now.clock <= IssuedAt(token) + lifetime;
            var active := ActiveUser(now, Subject(token)).Success?;
            && (CurrentUser(now, Issued(i)).Success? <==> i % 2 == 0 && live && active && Subject(token) != "")
            && (SocketUser(now, Issued(i)).Success? <==> i % 2 == 0 && live && active)
            && (RenewUser(now, Issued(i)).Success? <==> i % 2 == 1 && live && active)
  {
    RunIsShaped(config, s, es, n);
    var subject, time := ShapeFacts(config, At(config, s, es, n).issued, i);
  }

  /**
   * The REST guard and the WebSocket guard resolve a token alike, except an access token without a
   * subject while there is an active user whose name is empty.
   */
  lemma GuardsAgree(s: State, token: Presented)
    ensures CurrentUser(s, token) == SocketUser(s, token)
            <==> !(var claims := Decode(s, token);
                   && claims.Some? && "type" in claims.value && claims.value["type"] == Text("access")
                   && !("sub" in claims.value && claims.value["sub"].Text? && claims.value["sub"] != Text(""))
                   && ActiveUser(s, "").Success?)
  {
  }

  /** Rows whose name is empty are among the first ones, and active only if they were. */
  ghost predicate EmptyNamesAmong(first: seq<User>, rows: seq<User>) {
    forall i :: 0 <= i < |rows| && rows[i].username == "" ==>
                  i < |first| && first[i].username == "" && (rows[i].active ==> first[i].active)
  }

  /** Nothing on its way into the table has an empty name. */
  ghost predicate NamesPending(config: Config, s: State) {
    && (forall id :: id in s.admitted ==> s.admitted[id].username != "")
    && (s.seeding != {} ==> config.seedUsername != "")
  }

  lemma StepKeepsPending(config: Config, s: State, e: Event)
    requires NamesPending(config, s)
    ensures NamesPending(config, Step(config, s, e).0)
  {
  }

  lemma StepAddsNoEmptyName(config: Config, first: seq<User>, s: State, e: Event)
    requires NamesPending(config, s) && EmptyNamesAmong(first, s.rows)
    ensures EmptyNamesAmong(first, Step(config, s, e).0.rows)
  {
  }

  /** Neither registration nor seeding makes a user whose name is empty: such a row was there from the start. */
  lemma {:induction false} NoRouteMakesAnEmptyName(config: Config, s: State, es: seq<Event>, n: nat)
    requires Start(s) && n <= |es|
    ensures EmptyNamesAmong(s.rows, At(config, s, es, n).rows) && NamesPending(config, At(config, s, es, n))
  {
    if n > 0 {
      NoRouteMakesAnEmptyName(config, s, es, n - 1);
      StepKeepsPending(config, At(config, s, es, n - 1), es[n - 1]);
      StepAddsNoEmptyName(config, s.rows, At(config, s, es, n - 1), es[n - 1]);
    }
  }

  ghost predicate ActiveEmptyName(rows: seq<User>) {
    exists i :: 0 <= i < |rows| && rows[i].username == "" && rows[i].active
  }

  /** A login with the empty name, where there is such a user, yields a token that the guards judge differently. */
  lemma EmptyNameLogsIn(config: Config, s: State)
    requires Start(s) && ActiveUser(s, "").Success? && config.accessMinutes >= 0
    ensures var es := [Login("", ActiveUser(s, "").value.hash.plain)];
            CurrentUser(At(config, s, es, 1), Issued(0)) != SocketUser(At(config, s, es, 1), Issued(0))
  {
    var user := ActiveUser(s, "").value;
    var es := [Login("", user.hash.plain)];
    assert At(config, s, es, 1).issued == TokenPair(config, user, s.clock);
    KindsAreExclusive(config, "", user.role, s.clock);
  }

  /**
   * So the two guards agree on every token in every run exactly when the table does not start with
   * an active user whose name is empty, which only a row inserted directly can be.
   */
  lemma GuardsAgreeInEveryRun(config: Config, s: State)
    requires Start(s) && config.accessMinutes >= 0
    ensures (forall es, n: nat, token | n <= |es| ::
               CurrentUser(At(config, s, es, n), token) == SocketUser(At(config, s, es, n), token))
            <==> !ActiveEmptyName(s.rows)
  {
    if ActiveEmptyName(s.rows) {
      var i :| 0 <= i < |s.rows| && s.rows[i].username == "" && s.rows[i].active;
      assert Find(s.rows, "") == Some(i);
      EmptyNameLogsIn(config, s);
    } else {
      forall es, n: nat, token | n <= |es|
        ensures CurrentUser(At(config, s, es, n), token) == SocketUser(At(config, s, es, n), token)
      {
        NoRouteMakesAnEmptyName(config, s, es, n);
        GuardsAgree(At(config, s, es, n), token);
      }
    }
  }

  // ---- Provenance ----

  /** Step `m` of the run signed token `i`. */
  predicate Mints(config: Config, s: State, es: seq<Event>, m: nat, i: nat) {
    m < |es| && |At(config, s, es, m).issued| <= i < |At(config, s, es, m + 1).issued|
  }

  /** Step `m` is a login that succeeded: an active user of that name had that password. */
  predicate LogsIn(config: Config, s: State, es: seq<Event>, m: nat) {
    && m < |es| && es[m].Login?
    && LoginUser(At(config, s, es, m), es[m].username, es[m].password).Success?
  }

  /** Step `b` exchanged a refresh token signed at step `a`, within that token's lifetime. */
  ghost predicate Renews(config: Config, s: State, es: seq<Event>, a: nat, b: nat) {
    && a < b < |es| && es[b].Renew? && es[b].token.Issued?
    && es[b].token.n % 2 == 1 && Mints(config, s, es, a, es[b].token.n)
    && RenewUser(At(config, s, es, b), es[b].token).Success?
    && At(config, s, es, b).clock <= At(config, s, es, a).clock + 86400 * config.refreshDays
  }

  ghost predicate HopAt(config: Config, s: State, es: seq<Event>, path: seq<nat>, j: nat)
    requires 0 < j < |path|
  {
    Renews(config, s, es, path[j - 1], path[j])
  }

  /** A path of steps from a login through refreshes to the step that signed token `i`. */
  ghost predicate Lineage(config: Config, s: State, es: seq<Event>, path: seq<nat>, i: nat) {
    && |path| > 0 && LogsIn(config, s, es, path[0])
    && (forall j :: 0 < j < |path| ==> HopAt(config, s, es, path, j))
    && Mints(config, s, es, path[|path| - 1], i)
  }

  lemma StepIssues(config: Config, s: State, e: Event)
    ensures s.issued <= Step(config, s, e).0.issued
  {
  }

  lemma SameToken(config: Config, s: State, es: seq<Event>, n: nat, i: nat)
    requires 0 < n <= |es| && i < |At(config, s, es, n - 1).issued|
    ensures i < |At(config, s, es, n).issued|
    ensures At(config, s, es, n).issued[i] == At(config, s, es, n - 1).issued[i]
  {
    StepIssues(config, At(config, s, es, n - 1), es[n - 1]);
  }

  /** Event `e` succeeded in state `t` and named the subject of a token signed there. */
  predicate Sponsors(t: State, e: Event, token: Claims) {
    && IssuedAt(token) == t.clock
    && match e
       case Login(username, password) => LoginUser(t, username, password).Success? && Subject(token) == username
       case Renew(presented) =>
         && RenewUser(t, presented).Success? && presented.Issued? && presented.n < |t.issued|
         && Subject(token) == Subject(t.issued[presented.n])
       case _ => false
  }

  lemma PairFacts(config: Config, user: User, now: int, i: nat)
    requires i < 2
    ensures IssuedAt(TokenPair(config, user, now)[i]) == now
    ensures Subject(TokenPair(config, user, now)[i]) == user.username
  {
  }

  lemma SignedByStep(config: Config, t: State, e: Event, i: nat)
    requires |t.issued| <= i < |Step(config, t, e).0.issued|
    ensures Sponsors(t, e, Step(config, t, e).0.issued[i])
  {
    var user := match e case Login(username, password) => LoginUser(t, username, password)
                        case Renew(token) => RenewUser(t, token)
                        case _ => Failure(0);
    if user.Success? {
      assert Step(config, t, e).0.issued == t.issued + TokenPair(config, user.value, t.clock);
      PairFacts(config, user.value, t.clock, i - |t.issued|);
    }
  }

  /** The step that signed a token succeeded for the token's subject, at the token's `iat`. */
  lemma {:induction false} MintedBy(config: Config, s: State, es: seq<Event>, n: nat, i: nat) returns (m: nat)
    requires s.issued == [] && n <= |es| && i < |At(config, s, es, n).issued|
    ensures m < n && Mints(config, s, es, m, i)
    ensures Sponsors(At(config, s, es, m), es[m], At(config, s, es, n).issued[i])
  {
    if i < |At(config, s, es, n - 1).issued| {
      m := MintedBy(config, s, es, n - 1, i);
      SameToken(config, s, es, n, i);
    } else {
      m := n - 1;
      SignedByStep(config, At(config, s, es, n - 1), es[n - 1], i);
    }
  }

  /** What an exchanged token must have been: a refresh token not past its lifetime. */
  lemma RenewedIsLive(config: Config, s: State, es: seq<Event>, m: nat, p: nat)
    requires s.issued == [] && m <= |es| && RenewUser(At(config, s, es, m), Issued(p)).Success?
    ensures p < |At(config, s, es, m).issued| && p % 2 == 1
    ensures At(config, s, es, m).clock <= IssuedAt(At(config, s, es, m).issued[p]) + Lifetime(config, Refresh)
  {
    RunIsShaped(config, s, es, m);
    var subject, time := ShapeFacts(config, At(config, s, es, m).issued, p);
  }

  lemma ExtendLineage(config: Config, s: State, es: seq<Event>, before: seq<nat>, m: nat, i: nat)
    requires |before| > 0 && m < |es| && es[m].Renew? && es[m].token.Issued?
    requires Lineage(config, s, es, before, es[m].token.n) && Mints(config, s, es, m, i)
    requires Renews(config, s, es, before[|before| - 1], m)
    ensures Lineage(config, s, es, before + [m], i)
  {
    var path := before + [m];
    forall j | 0 < j < |path|
      ensures HopAt(config, s, es, path, j)
    {
      if j < |before| {
        assert HopAt(config, s, es, before, j);
      }
    }
  }

  /**
   * Every token descends through finitely many refreshes, each within a refresh lifetime of the
   * one before, from a successful login by the user it names.
   */
  lemma {:induction false} TokenLineage(config: Config, s: State, es: seq<Event>, n: nat, i: nat)
    returns (path: seq<nat>)
    requires s.issued == [] && n <= |es| && i < |At(config, s, es, n).issued|
    ensures Lineage(config, s, es, path, i) && path[|path| - 1] < n
    ensures es[path[0]].username == Subject(At(config, s, es, n).issued[i])
    ensures At(config, s, es, path[|path| - 1]).clock == IssuedAt(At(config, s, es, n).issued[i])
  {
    var m := MintedBy(config, s, es, n, i);
    if es[m].Login? {
      path := [m];
    } else {
      var p := es[m].token.n;
      RenewedIsLive(config, s, es, m, p);
      var before := TokenLineage(config, s, es, m, p);
      ExtendLineage(config, s, es, before, m, i);
      path := before + [m];
    }
  }

  /** The time that `k` lifetimes take, one after the other. */
  function Lifetimes(k: nat, lifetime: int): int {
    if k == 0 then 0 else Lifetimes(k - 1, lifetime) + lifetime
  }

  lemma {:induction false} LifetimesMultiply(k: nat, lifetime: int)
    ensures Lifetimes(k, lifetime) == k * lifetime
  {
    if k > 0 {
      LifetimesMultiply(k - 1, lifetime);
      assert k * lifetime == (k - 1) * lifetime + lifetime;
    }
  }

  /** The clock after the first `n` events: only ticks move it. */
  function ClockAt(s: State, es: seq<Event>, n: nat): int {
    if n == 0 || n > |es| then s.clock
    else ClockAt(s, es, n - 1) + if es[n - 1].Tick? then es[n - 1].seconds else 0
  }

  lemma {:induction false} ClockIs(config: Config, s: State, es: seq<Event>, n: nat)
    requires n <= |es|
    ensures At(config, s, es, n).clock == ClockAt(s, es, n)
  {
    if n > 0 {
      ClockIs(config, s, es, n - 1);
    }
  }

  lemma HopClock(config: Config, s: State, es: seq<Event>, path: seq<nat>, j: nat)
    requires 0 < j < |path| && HopAt(config, s, es, path, j)
    ensures path[j - 1] < path[j] < |es|
    ensures ClockAt(s, es, path[j]) <= ClockAt(s, es, path[j - 1]) + Lifetime(config, Refresh)
  {
    ClockIs(config, s, es, path[j]);
    ClockIs(config, s, es, path[j - 1]);
  }

  /** From each step of a path to the next the clock advances by at most `lifetime`. */
  predicate ClocksHop(s: State, es: seq<Event>, path: seq<nat>, lifetime: int) {
    forall j :: 0 < j < |path| ==> ClockAt(s, es, path[j]) <= ClockAt(s, es, path[j - 1]) + lifetime
  }

  lemma {:induction false} HopsAddUp(s: State, es: seq<Event>, path: seq<nat>, lifetime: int, k: nat)
    requires k < |path| && ClocksHop(s, es, path, lifetime)
    ensures ClockAt(s, es, path[k]) <= ClockAt(s, es, path[0]) + Lifetimes(k, lifetime)
  {
    if k > 0 {
      HopsAddUp(s, es, path, lifetime, k - 1);
    }
  }

  lemma LineageHops(config: Config, s: State, es: seq<Event>, path: seq<nat>, i: nat)
    requires Lineage(config, s, es, path, i)
    ensures ClocksHop(s, es, path, Lifetime(config, Refresh))
  {
    forall j | 0 < j < |path|
      ensures ClockAt(s, es, path[j]) <= ClockAt(s, es, path[j - 1]) + Lifetime(config, Refresh)
    {
      HopClock(config, s, es, path, j);
    }
  }

  /** Along a lineage of k refreshes the clock advances by at most k refresh lifetimes. */
  lemma LineageClock(config: Config, s: State, es: seq<Event>, path: seq<nat>, i: nat)
    requires Lineage(config, s, es, path, i)
    ensures ClockAt(s, es, path[|path| - 1])
            <= ClockAt(s, es, path[0]) + (|path| - 1) * (86400 * config.refreshDays)
  {
    assert Lifetime(config, Refresh) == 86400 * config.refreshDays;
    LineageHops(config, s, es, path, i);
    HopsAddUp(s, es, path, Lifetime(config, Refresh), |path| - 1);
    LifetimesMultiply(|path| - 1, Lifetime(config, Refresh));
  }

  lemma AcceptedIsLive(config: Config, now: State, i: nat)
    requires Shaped(config, now.issued) && SocketUser(now, Issued(i)).Success?
    ensures i < |now.issued| && SocketUser(now, Issued(i)).value.username == Subject(now.issued[i])
    ensures now.clock <= IssuedAt(now.issued[i]) + Lifetime(config, Access)
  {
    var subject, time := ShapeFacts(config, now.issued, i);
  }

  /**
   * A token accepted by a guard at some moment belongs to a user who logged in with the password
   * k refreshes earlier, and no later than k refresh lifetimes and one access lifetime ago.
   */
  lemma AcceptedAccessIsBounded(config: Config, s: State, es: seq<Event>, n: nat, i: nat, user: User)
    returns (path: seq<nat>)
    requires Start(s) && n <= |es|
    requires SocketUser(At(config, s, es, n), Issued(i)) == Success(user)
    ensures Lineage(config, s, es, path, i) && es[path[0]].username == user.username
    ensures ClockAt(s, es, n)
            <= ClockAt(s, es, path[0]) + (|path| - 1) * (86400 * config.refreshDays) + 60 * config.accessMinutes
  {
    RunIsShaped(config, s, es, n);
    AcceptedIsLive(config, At(config, s, es, n), i);
    path := TokenLineage(config, s, es, n, i);
    ClockIs(config, s, es, n);
    ClockIs(config, s, es, path[|path| - 1]);
    LineageClock(config, s, es, path, i);
  }
}
