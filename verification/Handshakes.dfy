/** Who gets a socket: the handshake of the connection machine over the reachable states of the session machine. */
module Handshakes {
  import opened Wrappers
  import Tokens
  import Sessions
  import Connection
  import opened Verdicts

  /** Without a handshake nothing has happened yet. */
  lemma {:induction false} NothingBefore(endpoint: Connection.Endpoint, es: seq<Connection.Event>, m: nat)
    requires m <= |es| && forall j :: 0 <= j < m ==> !es[j].Shake?
    ensures Connection.At(endpoint, es, m) == Connection.Open(endpoint)
  {
    if m > 0 {
      NothingBefore(endpoint, es, m - 1);
    }
  }

  lemma StepAppends(c: Connection.Conn, e: Connection.Event)
    ensures c.trace <= Connection.Step(c, e).trace
  {
  }

  lemma FirstStays(endpoint: Connection.Endpoint, es: seq<Connection.Event>, m: nat, n: nat)
    requires m <= n <= |es| && Connection.At(endpoint, es, m).trace != []
    ensures Connection.At(endpoint, es, n).trace != []
    ensures Connection.At(endpoint, es, n).trace[0] == Connection.At(endpoint, es, m).trace[0]
  {
    var first := Connection.At(endpoint, es, m).trace[0];
    var starts := (c: Connection.Conn) => c.trace != [] && c.trace[0] == first;
    forall c, e | starts(c)
      ensures starts(Connection.Step(c, e))
    {
      StepAppends(c, e);
    }
    Connection.KeptByRuns(starts, endpoint, es, m, n);
  }

  lemma GreetingExactly(config: Tokens.Config, s: Sessions.State, steps: seq<Sessions.Event>, k: nat,
                        token: Sessions.Presented, endpoint: Connection.Endpoint)
    requires Sessions.Start(s) && k <= |steps|
    ensures var now := Sessions.At(config, s, steps, k);
            Connection.Greeting(endpoint, now, token)
            == if !LiveAccess(config, now, token) then Connection.Close(4401) else
               var subject := Tokens.Subject(now.issued[token.n]);
               if !Present(now.rows, subject) then Connection.Close(4401)
               else if endpoint != Connection.Events && !PresentAs(now.rows, subject, {"operator", "admin"})
               then Connection.Close(4403)
               else Connection.Accept
  {
    var now := Sessions.At(config, s, steps, k);
    TokenResolves(config, s, steps, k, token);
    if LiveAccess(config, now, token) {
      var subject := Tokens.Subject(now.issued[token.n]);
      ActiveIsPresent(now, subject);
      if Sessions.ActiveUser(now, subject).Success? {
        Sessions.GuardAdmitsExactly(Sessions.ActiveUser(now, subject).value, Sessions.Viewer);
        Sessions.GuardAdmitsExactly(Sessions.ActiveUser(now, subject).value, Sessions.Operator);
      }
    }
  }

  /**
   * In every run of an endpoint whose handshake comes at any moment of any run of the session machine,
   * the first thing done is decided by the tokens and rows of that moment: a close with 4401 unless the
   * token is a live access token of an active user; on exec and console a close with 4403 unless that
   * user is stored as an operator or an admin; and else the accept. Events are open to every role.
   */
  lemma HandshakeDecides(config: Tokens.Config, s: Sessions.State, steps: seq<Sessions.Event>, k: nat,
                         token: Sessions.Presented, endpoint: Connection.Endpoint, es: seq<Connection.Event>,
                         m: nat, n: nat)
    requires Sessions.Start(s) && k <= |steps| && m < n <= |es|
    requires es[m] == Connection.Shake(Sessions.At(config, s, steps, k), token)
    requires forall j :: 0 <= j < m ==> !es[j].Shake?
    ensures var now, trace := Sessions.At(config, s, steps, k), Connection.At(endpoint, es, n).trace;
            && trace != []
            && trace[0]
               == if !LiveAccess(config, now, token) then Connection.Close(4401) else
                  var subject := Tokens.Subject(now.issued[token.n]);
                  if !Present(now.rows, subject) then Connection.Close(4401)
                  else if endpoint != Connection.Events && !PresentAs(now.rows, subject, {"operator", "admin"})
                  then Connection.Close(4403)
                  else Connection.Accept
  {
    NothingBefore(endpoint, es, m);
    GreetingExactly(config, s, steps, k, token, endpoint);
    var greeting := Connection.Greeting(endpoint, Sessions.At(config, s, steps, k), token);
    assert Connection.At(endpoint, es, m + 1) == Connection.Step(Connection.Open(endpoint), es[m]);
    assert Connection.At(endpoint, es, m + 1).trace == [greeting];
    FirstStays(endpoint, es, m + 1, n);
  }
}
