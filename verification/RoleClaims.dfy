/** The role claim written into access tokens never decides anything. */
module RoleClaims {
  import opened Tokens
  import opened Sessions

  /** Two tokens agree on every claim but the role. */
  predicate SameButRole(a: Claims, b: Claims) {
    a - {"role"} == b - {"role"}
  }

  /** Two servers agree on everything but the role claims inside the tokens they have issued. */
  ghost predicate SameButRoles(s: State, s': State) {
    && s' == s.(issued := s'.issued)
    && |s.issued| == |s'.issued|
    && forall i :: 0 <= i < |s.issued| ==> SameButRole(s.issued[i], s'.issued[i])
  }

  lemma RoleIsNotRead(a: Claims, b: Claims, now: int, kind: Kind)
    requires SameButRole(a, b)
    ensures Unexpired(a, now) == Unexpired(b, now) && HasKind(a, kind) == HasKind(b, kind) && Subject(a) == Subject(b)
  {
    forall name | name != "role"
      ensures name in a <==> name in b
      ensures name in a ==> a[name] == b[name]
    {
      assert name in a - {"role"} <==> name in b - {"role"};
      assert name in a ==> (a - {"role"})[name] == a[name] && (b - {"role"})[name] == b[name];
    }
    assert "exp"[0] == 'e' && "type"[0] == 't' && "sub"[0] == 's' && "role"[0] == 'r';
  }

  lemma SameUsers(s: State, s': State, token: Presented)
    requires SameButRoles(s, s')
    ensures CurrentUser(s, token) == CurrentUser(s', token)
    ensures SocketUser(s, token) == SocketUser(s', token)
    ensures RenewUser(s, token) == RenewUser(s', token)
  {
    if token.Issued? && token.n < |s.issued| {
      RoleIsNotRead(s.issued[token.n], s'.issued[token.n], s.clock, Access);
      RoleIsNotRead(s.issued[token.n], s'.issued[token.n], s.clock, Refresh);
    }
  }

  lemma RenewIgnoresRoles(config: Config, s: State, s': State, token: Presented)
    requires SameButRoles(s, s')
    ensures Step(config, s, Renew(token)).1 == Step(config, s', Renew(token)).1
    ensures SameButRoles(Step(config, s, Renew(token)).0, Step(config, s', Renew(token)).0)
  {
    SameUsers(s, s', token);
  }

  lemma AdmitIgnoresRoles(config: Config, s: State, s': State, e: Event)
    requires SameButRoles(s, s') && e.RegisterAdmit?
    ensures Step(config, s, e).1 == Step(config, s', e).1
    ensures SameButRoles(Step(config, s, e).0, Step(config, s', e).0)
  {
    SameUsers(s, s', e.token);
  }

  lemma StepIgnoresRoles(config: Config, s: State, s': State, e: Event)
    requires SameButRoles(s, s')
    ensures Step(config, s, e).1 == Step(config, s', e).1
    ensures SameButRoles(Step(config, s, e).0, Step(config, s', e).0)
  {
    match e
    case Renew(token) => RenewIgnoresRoles(config, s, s', token);
    case Guard(token, _) => SameUsers(s, s', token);
    case Handshake(token, _) => SameUsers(s, s', token);
    case RegisterAdmit(_, _, _, _, _) => AdmitIgnoresRoles(config, s, s', e);
    case _ =>
  }

  /**
   * Two servers whose tokens differ only in their role claims admit, refuse, grant and register
   * alike at every step of every run: authorisation reads the stored role.
   */
  lemma {:induction false} RoleClaimsDecideNothing(config: Config, s: State, s': State, es: seq<Event>, n: nat)
    requires SameButRoles(s, s') && n <= |es|
    ensures SameButRoles(At(config, s, es, n), At(config, s', es, n))
    ensures n < |es| ==> VerdictAt(config, s, es, n) == VerdictAt(config, s', es, n)
  {
    if n > 0 {
      RoleClaimsDecideNothing(config, s, s', es, n - 1);
      StepIgnoresRoles(config, At(config, s, es, n - 1), At(config, s', es, n - 1), es[n - 1]);
    }
    if n < |es| {
      StepIgnoresRoles(config, At(config, s, es, n), At(config, s', es, n), es[n]);
    }
  }
}
