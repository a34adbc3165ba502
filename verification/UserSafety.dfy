/** What holds of the user table over whole runs: uniqueness, preservation, and where rows come from. */
module UserSafety {
  import opened Wrappers
  import opened Tokens
  import opened Sessions

  /** Later rows extend earlier ones; an existing row keeps all but its active flag, which only falls. */
  ghost predicate Extends(before: seq<User>, after: seq<User>) {
    && |before| <= |after|
    && forall i :: 0 <= i < |before| ==>
                     after[i].(active := before[i].active) == before[i] && (after[i].active ==> before[i].active)
  }

  lemma StepKeepsRows(config: Config, s: State, e: Event)
    requires UniqueNames(s.rows)
    ensures UniqueNames(Step(config, s, e).0.rows) && Extends(s.rows, Step(config, s, e).0.rows)
    ensures |Step(config, s, e).0.rows| <= |s.rows| + 1
  {
  }

  /**
   * Under any interleaving of registrations and of workers seeding at once, usernames stay
   * unique and every existing row keeps its place, name, hash and role.
   */
  lemma {:induction false} RowsArePreserved(config: Config, s: State, es: seq<Event>, m: nat, n: nat)
    requires Start(s) && m <= n <= |es|
    ensures UniqueNames(At(config, s, es, n).rows)
    ensures Extends(At(config, s, es, m).rows, At(config, s, es, n).rows)
    decreases n - m, n
  {
    if m < n {
      RowsArePreserved(config, s, es, m, n - 1);
      StepKeepsRows(config, At(config, s, es, n - 1), es[n - 1]);
    } else if n > 0 {
      RowsArePreserved(config, s, es, n - 1, n - 1);
      StepKeepsRows(config, At(config, s, es, n - 1), es[n - 1]);
    }
  }

  // ---- Provenance of rows ----

  /** Step `m` appended row `r`. */
  predicate Adds(config: Config, s: State, es: seq<Event>, m: nat, r: nat) {
    m < |es| && |At(config, s, es, m).rows| == r < |At(config, s, es, m + 1).rows|
  }

  /** Step `g` admitted a valid request to register this user from a caller who was then an active admin. */
  predicate AdmitsBy(config: Config, s: State, es: seq<Event>, g: nat, id: nat, user: User) {
    && g < |es| && es[g].RegisterAdmit? && es[g].id == id
    && user == User(es[g].username, es[g].hash, RoleName(es[g].role), true)
    && WellFormed(es[g].username, es[g].hash.plain)
    && var caller := CurrentUser(At(config, s, es, g), es[g].token);
       caller.Success? && caller.value in At(config, s, es, g).rows
       && caller.value.active && caller.value.role == "admin"
  }

  lemma AdmissionStep(config: Config, s: State, e: Event, id: nat)
    requires id in Step(config, s, e).0.admitted
    ensures var user := Step(config, s, e).0.admitted[id];
            if id in s.admitted then user == s.admitted[id] else
            && e.RegisterAdmit? && e.id == id && WellFormed(e.username, e.hash.plain)
            && user == User(e.username, e.hash, RoleName(e.role), true)
            && Require(CurrentUser(s, e.token), Admin).Success?
  {
  }

  lemma AdminIsStored(s: State, token: Presented)
    requires Require(CurrentUser(s, token), Admin).Success?
    ensures var caller := CurrentUser(s, token);
            caller.Success? && caller.value in s.rows && caller.value.active && caller.value.role == "admin"
  {
    GuardAdmitsExactly(CurrentUser(s, token).value, Admin);
  }

  /** Every request waiting to commit was admitted at a step that can be named. */
  lemma {:induction false} AdmittedByAdmin(config: Config, s: State, es: seq<Event>, n: nat, id: nat) returns (g: nat)
    requires Start(s) && n <= |es| && id in At(config, s, es, n).admitted
    ensures g < n && AdmitsBy(config, s, es, g, id, At(config, s, es, n).admitted[id])
  {
    var t := At(config, s, es, n - 1);
    AdmissionStep(config, t, es[n - 1], id);
    if id in t.admitted {
      g := AdmittedByAdmin(config, s, es, n - 1, id);
    } else {
      g := n - 1;
      AdminIsStored(t, es[n - 1].token);
    }
  }

  /** Step `m` committed the configured seed user. */
  predicate SeededAt(config: Config, es: seq<Event>, m: nat, user: User) {
    m < |es| && es[m].SeedCommit? && !SeedingOff(config) && user == SeedUser(config, es[m].salt)
  }

  /** Step `m` committed a register request that an active admin's call had got admitted before. */
  ghost predicate RegisteredAt(config: Config, s: State, es: seq<Event>, m: nat, user: User) {
    m < |es| && es[m].RegisterCommit? && exists g: nat :: g < m && AdmitsBy(config, s, es, g, es[m].id, user)
  }

  /** Step `m` added row `r`, by seeding it or by registering it for an active admin. */
  ghost predicate Brought(config: Config, s: State, es: seq<Event>, m: nat, r: nat) {
    && Adds(config, s, es, m, r)
    && var user := At(config, s, es, m + 1).rows[r];
       SeededAt(config, es, m, user) || RegisteredAt(config, s, es, m, user)
  }

  /** Row `r` is initial, or seeded, or was registered for a caller who was an active admin. */
  ghost predicate Accounted(config: Config, s: State, es: seq<Event>, n: nat, r: nat) {
    r < |s.rows| || exists m: nat :: m < n && Brought(config, s, es, m, r)
  }

  lemma {:induction false} SeedingWasOn(config: Config, s: State, es: seq<Event>, n: nat)
    requires Start(s) && n <= |es|
    ensures SeedingOff(config) ==> At(config, s, es, n).seeding == {}
  {
    if n > 0 {
      SeedingWasOn(config, s, es, n - 1);
    }
  }

  lemma AddingStep(config: Config, s: State, e: Event)
    requires |Step(config, s, e).0.rows| > |s.rows|
    ensures var rows := Step(config, s, e).0.rows;
            && |rows| == |s.rows| + 1
            && if e.RegisterCommit? then e.id in s.admitted && rows[|s.rows|] == s.admitted[e.id]
               else e.SeedCommit? && e.worker in s.seeding && rows[|s.rows|] == SeedUser(config, e.salt)
  {
  }

  lemma AddedIsBrought(config: Config, s: State, es: seq<Event>, m: nat, r: nat)
    requires Start(s) && Adds(config, s, es, m, r)
    ensures Brought(config, s, es, m, r)
  {
    var t, e := At(config, s, es, m), es[m];
    AddingStep(config, t, e);
    if e.RegisterCommit? {
      var g := AdmittedByAdmin(config, s, es, m, e.id);
      assert RegisteredAt(config, s, es, m, At(config, s, es, m + 1).rows[r]);
    } else {
      SeedingWasOn(config, s, es, m);
      assert SeededAt(config, es, m, At(config, s, es, m + 1).rows[r]);
    }
  }

  /** A row beyond the initial ones was added by a step that can be named. */
  lemma {:induction false} AddedAt(config: Config, s: State, es: seq<Event>, n: nat, r: nat) returns (m: nat)
    requires n <= |es| && |s.rows| <= r < |At(config, s, es, n).rows|
    ensures m < n && Adds(config, s, es, m, r)
  {
    if r < |At(config, s, es, n - 1).rows| {
      m := AddedAt(config, s, es, n - 1, r);
    } else {
      m := n - 1;
      AddingStep(config, At(config, s, es, m), es[m]);
    }
  }

  lemma EveryRowIsAccounted(config: Config, s: State, es: seq<Event>, n: nat, r: nat)
    requires Start(s) && n <= |es| && r < |At(config, s, es, n).rows|
    ensures Accounted(config, s, es, n, r)
  {
    if |s.rows| <= r {
      var m := AddedAt(config, s, es, n, r);
      AddedIsBrought(config, s, es, m, r);
    }
  }

  ghost predicate NoActiveAdmin(rows: seq<User>) {
    forall i :: 0 <= i < |rows| ==> !(rows[i].active && rows[i].role == "admin")
  }

  /** Nobody can be added: no admin to register anyone, and no registration or seeding under way. */
  ghost predicate Frozen(s: State) {
    NoActiveAdmin(s.rows) && s.admitted == map[] && s.seeding == {}
  }

  lemma StepStaysFrozen(config: Config, s: State, e: Event)
    requires SeedingOff(config) && Frozen(s)
    ensures Frozen(Step(config, s, e).0) && |Step(config, s, e).0.rows| == |s.rows|
  {
  }

  lemma {:induction false} RunStaysFrozen(config: Config, s: State, es: seq<Event>, n: nat)
    requires n <= |es| && SeedingOff(config) && Frozen(s)
    ensures Frozen(At(config, s, es, n)) && |At(config, s, es, n).rows| == |s.rows|
  {
    if n > 0 {
      RunStaysFrozen(config, s, es, n - 1);
      StepStaysFrozen(config, At(config, s, es, n - 1), es[n - 1]);
    }
  }

  /** With seeding blank and no active admin at the start, the users are the same for ever. */
  lemma TableIsFrozen(config: Config, s: State, es: seq<Event>, n: nat)
    requires Start(s) && n <= |es| && SeedingOff(config) && NoActiveAdmin(s.rows)
    ensures var now := At(config, s, es, n);
            && |now.rows| == |s.rows| && Extends(s.rows, now.rows)
            && NoActiveAdmin(now.rows) && now.admitted == map[] && now.seeding == {}
  {
    RunStaysFrozen(config, s, es, n);
    RowsArePreserved(config, s, es, 0, n);
  }

  // ---- Deactivation ----

  lemma FindUnique(rows: seq<User>, i: nat)
    requires UniqueNames(rows) && i < |rows|
    ensures Find(rows, rows[i].username) == Some(i)
  {
    var found := Find(rows, rows[i].username);
    assert rows[found.value].username == rows[i].username;
    assert found.value < i || i < found.value || found.value == i;
  }

  lemma RowStaysInactive(before: seq<User>, after: seq<User>, i: nat)
    requires Extends(before, after) && i < |before| && !before[i].active
    ensures i < |after| && !after[i].active && after[i].username == before[i].username
  {
  }

  /** Nothing is decided in favour of a name without an active user. */
  lemma NothingForInactive(config: Config, s: State, e: Event, name: string)
    requires ActiveUser(s, name).Failure?
    ensures Step(config, s, e).1 != Admitted(name) && Step(config, s, e).1 != Granted(name)
  {
  }

  /**
   * Once a user has been deactivated no request is ever admitted, nor a token granted, in that
   * name again, whatever tokens were issued before and however long they live.
   */
  lemma DeactivationIsFinal(config: Config, s: State, es: seq<Event>, m: nat, n: nat)
    requires Start(s) && m < n < |es| && es[m].Deactivate?
    requires Find(At(config, s, es, m).rows, es[m].username).Some?
    ensures VerdictAt(config, s, es, n) != Admitted(es[m].username)
    ensures VerdictAt(config, s, es, n) != Granted(es[m].username)
  {
    var name := es[m].username;
    var before, after, rows := At(config, s, es, m).rows, At(config, s, es, m + 1).rows, At(config, s, es, n).rows;
    var i := Find(before, name).value;
    assert after == before[i := before[i].(active := false)];
    RowsArePreserved(config, s, es, m + 1, n);
    RowStaysInactive(after, rows, i);
    FindUnique(rows, i);
    NothingForInactive(config, At(config, s, es, n), es[n], name);
  }

  lemma StepDeactivatesByName(config: Config, s: State, e: Event, i: nat)
    requires UniqueNames(s.rows) && i < |s.rows| && s.rows[i].active
    ensures i < |Step(config, s, e).0.rows|
    ensures Step(config, s, e).0.rows[i].active <==> e != Deactivate(s.rows[i].username)
  {
    if e.Deactivate? {
      FindUnique(s.rows, i);
    }
  }

  /** A user is inactive later only by a deactivation in that user's own name. */
  lemma {:induction false} OnlyTheNamedIsDeactivated(config: Config, s: State, es: seq<Event>, m: nat, n: nat, i: nat)
    returns (k: nat)
    requires Start(s) && m <= n <= |es| && i < |At(config, s, es, m).rows| && At(config, s, es, m).rows[i].active
    requires i < |At(config, s, es, n).rows| && !At(config, s, es, n).rows[i].active
    ensures m <= k < n && es[k] == Deactivate(At(config, s, es, m).rows[i].username)
    decreases n - m
  {
    RowsArePreserved(config, s, es, m, n - 1);
    StepDeactivatesByName(config, At(config, s, es, m), es[m], i);
    if At(config, s, es, n - 1).rows[i].active {
      k := n - 1;
      StepDeactivatesByName(config, At(config, s, es, k), es[k], i);
    } else {
      k := OnlyTheNamedIsDeactivated(config, s, es, m, n - 1, i);
    }
  }

  // ---- Seeding ----

  /** One worker's whole `seed_admin` with nothing in between. */
  function SeedOnce(config: Config, s: State, worker: nat, salt: nat): State {
    Step(config, Step(config, s, SeedCheck(worker)).0, SeedCommit(worker, salt)).0
  }

  /** Seeding again changes nothing, even with another salt, and leaves one row of that name. */
  lemma SeedingIsIdempotent(config: Config, s: State, worker: nat, salt: nat, worker': nat, salt': nat)
    requires s.seeding == {}
    ensures var once := SeedOnce(config, s, worker, salt);
            && SeedOnce(config, once, worker', salt') == once
            && (!SeedingOff(config) ==> Find(once.rows, config.seedUsername).Some?)
            && (Find(s.rows, config.seedUsername).Some? ==> once == s)
  {
    var checked := Step(config, s, SeedCheck(worker)).0;
    if worker in checked.seeding {
      var once := SeedOnce(config, s, worker, salt);
      assert once.rows[|s.rows|].username == config.seedUsername;
    }
  }

  /**
   * What seeding does: nothing when either setting is blank or the name is taken; otherwise it adds
   * one active admin of the configured name and password, after the users there are.
   */
  lemma SeedingExactly(config: Config, s: State, worker: nat, salt: nat)
    requires s.seeding == {}
    ensures var taken := exists i :: 0 <= i < |s.rows| && s.rows[i].username == config.seedUsername;
            SeedOnce(config, s, worker, salt)
            == if config.seedUsername == "" || config.seedPassword == "" || taken then s
               else s.(rows := s.rows + [User(config.seedUsername, Hash(config.seedPassword, salt), "admin", true)])
  {
  }

  lemma SeedCommitStep(config: Config, s: State, worker: nat, salt: nat)
    requires worker in s.seeding
    ensures var (after, verdict) := Step(config, s, SeedCommit(worker, salt));
            && (verdict == Crashed <==> Find(s.rows, config.seedUsername).Some?)
            && (verdict == Crashed ==> after.rows == s.rows)
            && Find(after.rows, config.seedUsername).Some?
  {
    var after := Step(config, s, SeedCommit(worker, salt)).0;
    if Find(s.rows, config.seedUsername).None? {
      assert after.rows[|s.rows|].username == config.seedUsername;
    }
  }

  /**
   * Workers that seed at the same time: one that inserts after another fails to start, exactly
   * when the name is already there, and the table never gets a second row of that name.
   */
  lemma LateSeederCrashes(config: Config, s: State, es: seq<Event>, n: nat)
    requires Start(s) && n < |es| && es[n].SeedCommit? && es[n].worker in At(config, s, es, n).seeding
    ensures var rows, rows' := At(config, s, es, n).rows, At(config, s, es, n + 1).rows;
            && (VerdictAt(config, s, es, n) == Crashed <==> Find(rows, config.seedUsername).Some?)
            && (VerdictAt(config, s, es, n) == Crashed ==> rows' == rows)
            && Find(rows', config.seedUsername).Some? && UniqueNames(rows')
  {
    RowsArePreserved(config, s, es, n + 1, n + 1);
    SeedCommitStep(config, At(config, s, es, n), es[n].worker, es[n].salt);
  }

  /** The crash is reachable from every table without the name: two workers look before either inserts. */
  lemma TwoSeedersCrash(config: Config, s: State, salt: nat, salt': nat)
    requires Start(s) && !SeedingOff(config) && Find(s.rows, config.seedUsername).None?
    ensures var es := [SeedCheck(0), SeedCheck(1), SeedCommit(0, salt), SeedCommit(1, salt')];
            && VerdictAt(config, s, es, 2) == Done && VerdictAt(config, s, es, 3) == Crashed
            && At(config, s, es, 4).rows == s.rows + [SeedUser(config, salt)]
  {
    var es := [SeedCheck(0), SeedCheck(1), SeedCommit(0, salt), SeedCommit(1, salt')];
    assert At(config, s, es, 1) == s.(seeding := {0});
    assert At(config, s, es, 2) == s.(seeding := {0, 1});
    var third := At(config, s, es, 3);
    assert third.rows == s.rows + [SeedUser(config, salt)] && 1 in third.seeding;
    assert third.rows[|s.rows|].username == config.seedUsername;
    SeedCommitStep(config, third, 1, salt');
  }

  /**
   * Admission and commit are two steps: a register request admitted before its caller (or anyone
   * else) is deactivated still adds its user afterwards, unless the name is taken.
   */
  lemma AdmissionOutlivesDeactivation(config: Config, s: State, id: nat, admin: string)
    requires id in s.admitted
    ensures var between := Step(config, s, Deactivate(admin)).0;
            var (after, verdict) := Step(config, between, RegisterCommit(id));
            && (verdict == Done <==> Find(s.rows, s.admitted[id].username).None?)
            && (verdict == Done ==> after.rows == between.rows + [s.admitted[id]])
  {
    var between := Step(config, s, Deactivate(admin)).0;
    var before, after := Find(s.rows, s.admitted[id].username), Find(between.rows, s.admitted[id].username);
    assert before.Some? ==> between.rows[before.value].username == s.admitted[id].username;
    assert after.Some? ==> s.rows[after.value].username == s.admitted[id].username;
  }
}
