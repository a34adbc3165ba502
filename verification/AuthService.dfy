/**
 * The auth routes, user table and seeding as they run, over the database rows, the clock and the
 * tokens signed so far. Each method is proved against the steps of the session state machine.
 */
module AuthService {
  import opened Wrappers
  import opened Tokens
  import opened Sessions

  /** `TokenResponse`. */
  datatype TokenReply = TokenReply(access: Claims, refresh: Claims, expiresIn: int)

  class Server {
    const config: Config
    var rows: seq<User>
    var issued: seq<Claims>
    var clock: int

    constructor (config: Config, rows: seq<User>, clock: int)
      ensures this.config == config && View() == State(rows, [], clock, map[], {})
    {
      this.config := config;
      this.rows, this.issued, this.clock := rows, [], clock;
    }

    function View(): State
      reads this
    {
      State(rows, issued, clock, map[], {})
    }

    /** The handler is suspended; when it resumes, other requests have left these rows behind. */
    method Await(meanwhile: seq<User>)
      modifies this`rows
      ensures rows == meanwhile
    {
      rows := meanwhile;
    }

    /** Add the row and commit; the unique index turns a duplicate into a rollback. */
    method CreateUser(username: string, password: string, salt: nat, role: string) returns (r: Result<User, ()>)
      modifies this`rows
      ensures var user := User(username, Hash(password, salt), role, true);
              var inserted := Insert(old(rows), user);
              && r == (if inserted.Some? then Success(user) else Failure(()))
              && rows == if inserted.Some? then inserted.value else old(rows)
    {
      var committed := rows;
      var user := User(username, Hash(password, salt), role, true);
      rows := rows + [user];
      if Find(committed, username).Some? {
        rows := committed;
        return Failure(());
      }
      return Success(user);
    }

    /** `ok` is false when the insert conflicts, which nothing in the start-up code catches. */
    method SeedAdmin(salt: nat, meanwhile: seq<User>) returns (ok: bool)
      modifies this`rows
      ensures var checked := Step(config, old(View()), SeedCheck(0)).0;
              var resumed := checked.(rows := if 0 in checked.seeding then meanwhile else old(rows));
              var (after, verdict) := Step(config, resumed, SeedCommit(0, salt));
              View() == after && ok == (verdict != Crashed)
    {
      var username, password := config.seedUsername, config.seedPassword;
      if username == "" || password == "" {
        return true;
      }
      var existing := Find(rows, username);
      if existing.Some? {
        return true;
      }
      Await(meanwhile);
      var created := CreateUser(username, password, salt, "admin");
      return created.Success?;
    }

    /** The admin guard, the body's checks, then the insert; the password is hashed and committed in between. */
    method Register(token: Presented, username: string, password: string, salt: nat, role: Role, meanwhile: seq<User>)
      returns (r: Result<User, int>)
      modifies this`rows
      ensures var (guarded, admission) :=
                Step(config, old(View()), RegisterAdmit(0, token, username, Hash(password, salt), role));
              if admission.Refused? then r == Failure(admission.status) && View() == old(View())
              else
                var (after, verdict) := Step(config, guarded.(rows := meanwhile), RegisterCommit(0));
                && View() == after
                && r == if verdict.Refused? then Failure(verdict.status)
                        else Success(User(username, Hash(password, salt), RoleName(role), true))
    {
      var caller := Require(CurrentUser(View(), token), Admin);
      if caller.Failure? {
        return Failure(caller.error);
      }
      if !WellFormed(username, password) {
        return Failure(422);
      }
      Await(meanwhile);
      var created := CreateUser(username, password, salt, RoleName(role));
      if created.Failure? {
        return Failure(409);
      }
      return Success(created.value);
    }

    /** The access token carries the user's stored role; the refresh token carries none. */
    method MakeTokenPair(user: User) returns (pair: TokenReply)
      modifies this`issued
      ensures [pair.access, pair.refresh] == TokenPair(config, user, clock) && pair.expiresIn == ExpiresIn(config)
      ensures issued == old(issued) + TokenPair(config, user, clock)
    {
      var access := CreateToken(config, user.username, Access, Some(map["role" := Text(user.role)]), clock);
      var refresh := CreateToken(config, user.username, Kind.Refresh, None, clock);
      issued := issued + [access, refresh];
      return TokenReply(access, refresh, config.accessMinutes * 60);
    }

    method Login(username: string, password: string) returns (r: Result<TokenReply, int>)
      modifies this`issued
      ensures var (after, verdict) := Step(config, old(View()), Event.Login(username, password));
              && View() == after
              && (r.Failure? <==> verdict == Refused(401)) && (r.Failure? ==> r.error == 401)
              && (r.Success? ==> issued == old(issued) + [r.value.access, r.value.refresh]
                                 && r.value.expiresIn == 60 * config.accessMinutes)
    {
      var user := UserNamed(rows, username);
      if user.None? || !user.value.active {
        return Failure(401);
      }
      if !VerifyPassword(password, user.value.hash) {
        return Failure(401);
      }
      var pair := MakeTokenPair(user.value);
      return Success(pair);
    }

    method Refresh(token: Presented) returns (r: Result<TokenReply, int>)
      modifies this`issued
      ensures var (after, verdict) := Step(config, old(View()), Renew(token));
              && View() == after
              && (r.Failure? <==> verdict == Refused(401)) && (r.Failure? ==> r.error == 401)
              && (r.Success? ==> issued == old(issued) + [r.value.access, r.value.refresh]
                                 && r.value.expiresIn == 60 * config.accessMinutes)
    {
      var decoded := Decode(View(), token);
      if decoded.None? {
        return Failure(401);
      }
      if !HasKind(decoded.value, Kind.Refresh) {
        return Failure(401);
      }
      var user := UserNamed(rows, Subject(decoded.value));
      if user.None? || !user.value.active {
        return Failure(401);
      }
      var pair := MakeTokenPair(user.value);
      return Success(pair);
    }
  }
}
