/** Who is let in and who is given tokens, read directly off the user table, the clock and the tokens. */
module Verdicts {
  import opened Wrappers
  import opened Tokens
  import opened Sessions
  import opened TokenSafety
  import opened UserSafety

  predicate Active(user: User, username: string) {
    user.username == username && user.active
  }

  /** Some row is that of an active user of this name. */
  ghost predicate Present(rows: seq<User>, username: string) {
    exists i :: 0 <= i < |rows| && Active(rows[i], username)
  }

  /** Some row is that of an active user of this name, stored with one of these roles. */
  ghost predicate PresentAs(rows: seq<User>, username: string, roles: set<string>) {
    exists i :: 0 <= i < |rows| && Active(rows[i], username) && rows[i].role in roles
  }

  /** An active user is found by name, and only that user. */
  lemma ActiveIsPresent(s: State, username: string)
    requires UniqueNames(s.rows)
    ensures ActiveUser(s, username).Success? <==> Present(s.rows, username)
    ensures match ActiveUser(s, username)
            case Success(user) =>
              && Active(user, username) && user in s.rows
              && forall roles :: PresentAs(s.rows, username, roles) <==> user.role in roles
            case Failure(status) => status == 401
  {
    var found := Find(s.rows, username);
    if found.Some? && s.rows[found.value].active {
      assert Active(s.rows[found.value], username);
    }
    forall i | 0 <= i < |s.rows| && Active(s.rows[i], username)
      ensures found == Some(i)
    {
      FindUnique(s.rows, i);
    }
  }

  /** The token is one of this server's access tokens, and not past its lifetime. */
  predicate LiveAccess(config: Config, now: State, token: Presented) {
    && token.Issued? && token.n < |now.issued| && token.n % 2 == 0
    && now.clock <= IssuedAt(now.issued[token.n]) + 60 * config.accessMinutes
  }

  predicate LiveRefresh(config: Config, now: State, token: Presented) {
    && token.Issued? && token.n < |now.issued| && token.n % 2 == 1
    && now.clock <= IssuedAt(now.issued[token.n]) + 86400 * config.refreshDays
  }

  /** What the two guards make of a token in a reachable state. */
  lemma TokenResolves(config: Config, s: State, es: seq<Event>, n: nat, token: Presented)
    requires Start(s) && n <= |es|
    ensures var now := At(config, s, es, n);
            && UniqueNames(now.rows)
            && SocketUser(now, token) == (if LiveAccess(config, now, token)
                                          then ActiveUser(now, Subject(now.issued[token.n])) else Failure(401))
            && CurrentUser(now, token) == (if LiveAccess(config, now, token) && Subject(now.issued[token.n]) != ""
                                           then ActiveUser(now, Subject(now.issued[token.n])) else Failure(401))
            && RenewUser(now, token) == (if LiveRefresh(config, now, token)
                                         then ActiveUser(now, Subject(now.issued[token.n])) else Failure(401))
  {
    var now := At(config, s, es, n);
    RowsArePreserved(config, s, es, n, n);
    RunIsShaped(config, s, es, n);
    if token.Issued? && token.n < |now.issued| {
      var subject, time := ShapeFacts(config, now.issued, token.n);
    }
  }

  /** The role asked for, against the role stored with the active user of a name. */
  ghost predicate MayAct(rows: seq<User>, username: string, need: Role) {
    match need
    case Viewer => Present(rows, username)
    case Operator => PresentAs(rows, username, {"operator", "admin"})
    case Admin => PresentAs(rows, username, {"admin"})
  }

  lemma RequireIsMayAct(s: State, username: string, need: Role)
    requires UniqueNames(s.rows)
    ensures Admission(Require(ActiveUser(s, username), need))
            == if !Present(s.rows, username) then Refused(401)
               else if !MayAct(s.rows, username, need) then Refused(403) else Admitted(username)
  {
    ActiveIsPresent(s, username);
    if ActiveUser(s, username).Success? {
      GuardAdmitsExactly(ActiveUser(s, username).value, need);
    }
  }

  /**
   * In every run the verdict on a guarded request or a handshake: 401 unless it presents an access
   * token of this server, within 60 seconds a minute configured of its signing, whose subject is at
   * that moment an active user (and, for a REST request, not empty); 403 if that user's stored role
   * does not suffice; else it is admitted in that name.
   */
  lemma GuardVerdict(config: Config, s: State, es: seq<Event>, n: nat)
    requires Start(s) && n < |es| && (es[n].Guard? || es[n].Handshake?)
    ensures var now, token := At(config, s, es, n), es[n].token;
            VerdictAt(config, s, es, n)
            == if !LiveAccess(config, now, token) then Refused(401) else
               var subject := Subject(now.issued[token.n]);
               if !Present(now.rows, subject) || (es[n].Guard? && subject == "") then Refused(401)
               else if !MayAct(now.rows, subject, es[n].need) then Refused(403)
               else Admitted(subject)
  {
    var now, token := At(config, s, es, n), es[n].token;
    TokenResolves(config, s, es, n, token);
    if LiveAccess(config, now, token) {
      RequireIsMayAct(now, Subject(now.issued[token.n]), es[n].need);
    }
  }

  lemma WellFormedExactly(username: string, password: string)
    ensures WellFormed(username, password) <==>
              && 3 <= |username| <= 64 && 8 <= |password| <= 128
              && !exists c :: c in username && !('A' <= c <= 'Z' || 'a' <= c <= 'z' || '0' <= c <= '9'
                                                  || c == '_' || c == '.' || c == '-')
  {
    forall i | 0 <= i < |username|
      ensures username[i] in username
    {
    }
  }

  /**
   * In every run the verdict on a registration: the guard's for an admin, then 422 unless the name has
   * 3 to 64 characters out of letters, digits, `_`, `.` and `-` and the password 8 to 128; and what
   * is then on its way into the table.
   */
  lemma RegisterVerdict(config: Config, s: State, es: seq<Event>, n: nat)
    requires Start(s) && n < |es| && es[n].RegisterAdmit?
    ensures var now, e := At(config, s, es, n), es[n];
            VerdictAt(config, s, es, n)
            == if !LiveAccess(config, now, e.token) then Refused(401) else
               var subject := Subject(now.issued[e.token.n]);
               if !Present(now.rows, subject) || subject == "" then Refused(401)
               else if !PresentAs(now.rows, subject, {"admin"}) then Refused(403)
               else if !(3 <= |e.username| <= 64) || !(8 <= |e.hash.plain| <= 128) then Refused(422)
               else if exists c :: c in e.username && !('A' <= c <= 'Z' || 'a' <= c <= 'z' || '0' <= c <= '9'
                                                        || c == '_' || c == '.' || c == '-') then Refused(422)
               else Admitted(subject)
    ensures var now, e := At(config, s, es, n), es[n];
            At(config, s, es, n + 1)
            == if VerdictAt(config, s, es, n).Admitted? && e.id !in now.admitted then
                 var role := match e.role case Viewer => "viewer" case Operator => "operator" case Admin => "admin";
                 now.(admitted := now.admitted[e.id := User(e.username, e.hash, role, true)])
               else now
  {
    var now, e := At(config, s, es, n), es[n];
    TokenResolves(config, s, es, n, e.token);
    WellFormedExactly(e.username, e.hash.plain);
    if LiveAccess(config, now, e.token) {
      RequireIsMayAct(now, Subject(now.issued[e.token.n]), Admin);
    }
  }

  /** In every run the commit of a registration: 409 and no row if the name is taken, else the row at the end. */
  lemma CommitVerdict(config: Config, s: State, es: seq<Event>, n: nat)
    requires Start(s) && n < |es| && es[n].RegisterCommit? && es[n].id in At(config, s, es, n).admitted
    ensures var now, user := At(config, s, es, n), At(config, s, es, n).admitted[es[n].id];
            var after := At(config, s, es, n + 1);
            && after.admitted == now.admitted - {es[n].id}
            && if exists i :: 0 <= i < |now.rows| && now.rows[i].username == user.username then
                 VerdictAt(config, s, es, n) == Refused(409) && after.rows == now.rows
               else VerdictAt(config, s, es, n) == Done && after.rows == now.rows + [user]
  {
  }

  predicate Knows(user: User, username: string, password: string) {
    Active(user, username) && user.hash.plain == password
  }

  /** Some row is that of an active user of this name and password. */
  ghost predicate MayLogIn(rows: seq<User>, username: string, password: string) {
    exists i :: 0 <= i < |rows| && Knows(rows[i], username, password)
  }

  lemma LoginIsMayLogIn(s: State, username: string, password: string)
    requires UniqueNames(s.rows)
    ensures LoginUser(s, username, password).Success? <==> MayLogIn(s.rows, username, password)
    ensures var user := LoginUser(s, username, password);
            if user.Success? then user.value.username == username else user.error == 401
  {
    var found := Find(s.rows, username);
    if LoginUser(s, username, password).Success? {
      assert Knows(s.rows[found.value], username, password);
    }
    forall i | 0 <= i < |s.rows| && Knows(s.rows[i], username, password)
      ensures LoginUser(s, username, password).Success?
    {
      FindUnique(s.rows, i);
    }
  }

  /** In every run a login yields tokens exactly for the name and password of an active user, and is a 401 else. */
  lemma LoginVerdict(config: Config, s: State, es: seq<Event>, n: nat)
    requires Start(s) && n < |es| && es[n].Login?
    ensures VerdictAt(config, s, es, n)
            == if MayLogIn(At(config, s, es, n).rows, es[n].username, es[n].password) then Granted(es[n].username)
               else Refused(401)
  {
    RowsArePreserved(config, s, es, n, n);
    LoginIsMayLogIn(At(config, s, es, n), es[n].username, es[n].password);
  }

  /** In every run a refresh yields tokens exactly for a live refresh token of an active user, and is a 401 else. */
  lemma RenewVerdict(config: Config, s: State, es: seq<Event>, n: nat)
    requires Start(s) && n < |es| && es[n].Renew?
    ensures var now, token := At(config, s, es, n), es[n].token;
            VerdictAt(config, s, es, n)
            == if LiveRefresh(config, now, token) && Present(now.rows, Subject(now.issued[token.n]))
               then Granted(Subject(now.issued[token.n])) else Refused(401)
  {
    var now, token := At(config, s, es, n), es[n].token;
    TokenResolves(config, s, es, n, token);
    if LiveRefresh(config, now, token) {
      ActiveIsPresent(now, Subject(now.issued[token.n]));
    }
  }

  /**
   * What a grant signs: two tokens, in this order, for the active user of the name granted, the
   * access token with the role stored for that user and the refresh token with none.
   */
  lemma GrantSigns(config: Config, s: State, es: seq<Event>, n: nat, name: string) returns (i: nat)
    requires Start(s) && n < |es| && VerdictAt(config, s, es, n) == Granted(name)
    ensures var now := At(config, s, es, n);
            && i < |now.rows| && Active(now.rows[i], name)
            && At(config, s, es, n + 1).issued
               == now.issued
                  + [map["sub" := Text(name), "type" := Text("access"), "iat" := Instant(now.clock),
                         "exp" := Instant(now.clock + 60 * config.accessMinutes), "role" := Text(now.rows[i].role)],
                     map["sub" := Text(name), "type" := Text("refresh"), "iat" := Instant(now.clock),
                         "exp" := Instant(now.clock + 86400 * config.refreshDays)]]
  {
    var now := At(config, s, es, n);
    var user := GrantedUser(config, now, es[n], name);
    i := Find(now.rows, name).value;
    PairClaims(config, user, now.clock);
  }

  lemma GrantedUser(config: Config, now: State, e: Event, name: string) returns (user: User)
    requires Step(config, now, e).1 == Granted(name)
    ensures Active(user, name) && UserNamed(now.rows, name) == Some(user)
    ensures Step(config, now, e).0.issued == now.issued + TokenPair(config, user, now.clock)
  {
    user := match e case Login(username, password) => LoginUser(now, username, password).value
                    case Renew(token) => RenewUser(now, token).value;
  }

  predicate Holds(t: State, i: nat, token: Claims) {
    i < |t.issued| && t.issued[i] == token
  }

  lemma HoldsNext(config: Config, t: State, e: Event, i: nat, token: Claims)
    requires Holds(t, i, token)
    ensures Holds(Step(config, t, e).0, i, token)
  {
    StepIssues(config, t, e);
  }

  lemma {:induction false} TokenStays(config: Config, s: State, es: seq<Event>, m: nat, n: nat, i: nat, token: Claims)
    requires m <= n <= |es| && Holds(At(config, s, es, m), i, token)
    ensures Holds(At(config, s, es, n), i, token)
    decreases n - m
  {
    if m < n {
      TokenStays(config, s, es, m, n - 1, i, token);
      HoldsNext(config, At(config, s, es, n - 1), es[n - 1], i, token);
    }
  }

  /**
   * `expires_in` tells the truth: from the grant on, the access token granted is accepted, on behalf of
   * its user while that user is active, exactly until that many seconds have passed.
   */
  lemma GrantLasts(config: Config, s: State, es: seq<Event>, m: nat, n: nat, name: string)
    requires Start(s) && m < n <= |es| && VerdictAt(config, s, es, m) == Granted(name)
    ensures var now, token := At(config, s, es, n), Issued(|At(config, s, es, m).issued|);
            && ExpiresIn(config) == 60 * config.accessMinutes
            && (SocketUser(now, token).Success?
                <==> now.clock <= At(config, s, es, m).clock + ExpiresIn(config) && Present(now.rows, name))
            && (name != "" ==> CurrentUser(now, token) == SocketUser(now, token))
  {
    var i := |At(config, s, es, m).issued|;
    var token := GrantedToken(config, s, es, m, n, name);
    TokenResolves(config, s, es, n, Issued(i));
    ActiveIsPresent(At(config, s, es, n), name);
    RunIsShaped(config, s, es, m);
  }

  /** The access token of a grant, as it is found later. */
  lemma GrantedToken(config: Config, s: State, es: seq<Event>, m: nat, n: nat, name: string) returns (token: Claims)
    requires m < n <= |es| && VerdictAt(config, s, es, m) == Granted(name)
    ensures Holds(At(config, s, es, n), |At(config, s, es, m).issued|, token)
    ensures Subject(token) == name && IssuedAt(token) == At(config, s, es, m).clock
  {
    token := SignedToken(config, At(config, s, es, m), es[m], name);
    TokenStays(config, s, es, m + 1, n, |At(config, s, es, m).issued|, token);
  }

  lemma SignedToken(config: Config, now: State, e: Event, name: string) returns (token: Claims)
    requires Step(config, now, e).1 == Granted(name)
    ensures Holds(Step(config, now, e).0, |now.issued|, token)
    ensures Subject(token) == name && IssuedAt(token) == now.clock
  {
    var user := GrantedUser(config, now, e, name);
    PairFacts(config, user, now.clock, 0);
    token := TokenPair(config, user, now.clock)[0];
  }
}
