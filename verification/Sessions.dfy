/**
 * Users, tokens and role checks as one state machine. Tokens are symbolic: a client can present
 * a token the server has issued, named by its position, or one that does not verify.
 */
module Sessions {
  import opened Wrappers
  import opened Tokens

  datatype Role = Viewer | Operator | Admin {
    function Level(): int {
      match this
      case Viewer => 1
      case Operator => 2
      case Admin => 3
    }

    predicate AtLeast(other: Role) {
      Level() >= other.Level()
    }
  }

  /** `Role(user.role)`, falling back to viewer on any other string. */
  function ParseRole(name: string): Role {
    if name == "admin" then Admin else if name == "operator" then Operator else Viewer
  }

  /** A symbolic password hash: verification succeeds on the password that was hashed. */
  datatype Hash = Hash(plain: string, salt: nat)

  predicate VerifyPassword(plain: string, hash: Hash) {
    hash.plain == plain
  }

  datatype User = User(username: string, hash: Hash, role: string, active: bool)

  /** What a client puts forward as a token. */
  datatype Presented = Absent | Forged | Issued(n: nat)

  /**
   * `rows` is the user table in insertion order and `issued` every token ever signed. `admitted`
   * holds register requests past the admin guard and not yet committed, `seeding` the workers
   * that have looked for the seed user, missed it, and not yet inserted it.
   */
  datatype State = State(rows: seq<User>, issued: seq<Claims>, clock: int,
                         admitted: map<nat, User>, seeding: set<nat>)

  datatype Event =
    | Tick(seconds: nat)
    | Login(username: string, password: string)
    | Renew(token: Presented)
    | Guard(token: Presented, need: Role)
    | Handshake(token: Presented, need: Role)
    | RegisterAdmit(id: nat, token: Presented, username: string, hash: Hash, role: Role)
    | RegisterCommit(id: nat)
    | SeedCheck(worker: nat)
    | SeedCommit(worker: nat, salt: nat)
    | Deactivate(username: string)

  /** `Crashed` is an exception nobody catches: the seeding worker does not start. */
  datatype Verdict = Done | Admitted(username: string) | Granted(username: string) | Refused(status: int) | Crashed

  /** The position of the row with a username, if any. */
  function Find(rows: seq<User>, username: string): (found: Option<nat>)
    ensures found.Some? ==> found.value < |rows| && rows[found.value].username == username
    ensures found.None? ==> forall i :: 0 <= i < |rows| ==> rows[i].username != username
  {
    if rows == [] then None
    else if rows[|rows| - 1].username == username then Some(|rows| - 1)
    else Find(rows[..|rows| - 1], username)
  }

  function UserNamed(rows: seq<User>, username: string): Option<User> {
    var found := Find(rows, username);
    if found.Some? then Some(rows[found.value]) else None
  }

  /** `create_user`: the unique index rejects a second row of the same name, and nothing changes. */
  function Insert(rows: seq<User>, user: User): Option<seq<User>> {
    if Find(rows, user.username).Some? then None else Some(rows + [user])
  }

  function Decode(s: State, token: Presented): Option<Claims> {
    if token.Issued? && token.n < |s.issued| && Unexpired(s.issued[token.n], s.clock)
    then Some(s.issued[token.n]) else None
  }

  /** `get_current_user`. */
  function CurrentUser(s: State, token: Presented): Result<User, int> {
    var claims := Decode(s, token);
    if claims.None? || !HasKind(claims.value, Access) || Subject(claims.value) == "" then Failure(401)
    else ActiveUser(s, Subject(claims.value))
  }

  /** `ws_user_from_token`, which does not look whether the subject is empty. */
  function SocketUser(s: State, token: Presented): Result<User, int> {
    var claims := Decode(s, token);
    if claims.None? || !HasKind(claims.value, Access) then Failure(401)
    else ActiveUser(s, Subject(claims.value))
  }

  function ActiveUser(s: State, username: string): Result<User, int> {
    match UserNamed(s.rows, username)
    case Some(user) => if user.active then Success(user) else Failure(401)
    case None => Failure(401)
  }

  /** `require_role` over a resolved user. */
  function Require(user: Result<User, int>, need: Role): Result<User, int> {
    if user.Failure? then user
    else if ParseRole(user.value.role).AtLeast(need) then user
    else Failure(403)
  }

  /**
   * The guard by levels as a table over stored role names: anyone is a viewer, an unknown name
   * included. It refuses with 403, and the name a role is stored under reads back as that role.
   */
  lemma GuardAdmitsExactly(user: User, need: Role)
    ensures var suits := match need
                         case Viewer => true
                         case Operator => user.role == "operator" || user.role == "admin"
                         case Admin => user.role == "admin";
            Require(Success(user), need) == if suits then Success(user) else Failure(403)
    ensures ParseRole(RoleName(need)) == need && RoleName(need) in {"viewer", "operator", "admin"}
    ensures ParseRole("viewer") == Viewer
  {
    assert |"viewer"| == 6 && |"operator"| == 8 && |"admin"| == 5;
  }

  /** `_make_token_pair`: an access token carrying the stored role, then a refresh token. */
  function TokenPair(config: Config, user: User, now: int): seq<Claims> {
    [AccessPayload(config, user.username, user.role, now), RefreshPayload(config, user.username, now)]
  }

  /**
   * The pair with every claim written out: the access token passes the decoder for 60 seconds a
   * minute configured, the refresh token for 86400 a day, and then never again.
   */
  lemma PairClaims(config: Config, user: User, now: int)
    ensures TokenPair(config, user, now)
            == [map["sub" := Text(user.username), "type" := Text("access"), "iat" := Instant(now),
                    "exp" := Instant(now + 60 * config.accessMinutes), "role" := Text(user.role)],
                map["sub" := Text(user.username), "type" := Text("refresh"), "iat" := Instant(now),
                    "exp" := Instant(now + 86400 * config.refreshDays)]]
    ensures forall t :: Unexpired(TokenPair(config, user, now)[0], t) <==> t <= now + 60 * config.accessMinutes
    ensures forall t :: Unexpired(TokenPair(config, user, now)[1], t) <==> t <= now + 86400 * config.refreshDays
  {
    var own := map["sub" := Text(user.username), "type" := Text("refresh"), "iat" := Instant(now),
                   "exp" := Instant(now + 86400 * config.refreshDays)];
    assert RefreshPayload(config, user.username, now) == own + map[] == own;
    assert AccessPayload(config, user.username, user.role, now)
        == map["sub" := Text(user.username), "type" := Text("access"), "iat" := Instant(now),
               "exp" := Instant(now + 60 * config.accessMinutes), "role" := Text(user.role)];
  }

  function Grant(config: Config, s: State, user: Result<User, int>): (State, Verdict) {
    match user
    case Success(u) => (s.(issued := s.issued + TokenPair(config, u, s.clock)), Granted(u.username))
    case Failure(status) => (s, Refused(status))
  }

  function Admission(user: Result<User, int>): Verdict {
    match user
    case Success(u) => Admitted(u.username)
    case Failure(status) => Refused(status)
  }

  /** The user a login succeeds for: present, active, and with that password. */
  function LoginUser(s: State, username: string, password: string): Result<User, int> {
    var user := ActiveUser(s, username);
    if user.Success? && !VerifyPassword(password, user.value.hash) then Failure(401) else user
  }

  /** The user a refresh succeeds for: the active subject of a live refresh token. */
  function RenewUser(s: State, token: Presented): Result<User, int> {
    var claims := Decode(s, token);
    if claims.None? || !HasKind(claims.value, Refresh) then Failure(401)
    else ActiveUser(s, Subject(claims.value))
  }

  predicate WordCharacter(c: char) {
    'A' <= c <= 'Z' || 'a' <= c <= 'z' || '0' <= c <= '9' || c == '_' || c == '.' || c == '-'
  }

  /** What registration demands of a username and a password; nothing else does. */
  predicate WellFormed(username: string, password: string) {
    && 3 <= |username| <= 64 && (forall i :: 0 <= i < |username| ==> WordCharacter(username[i]))
    && 8 <= |password| <= 128
  }

  predicate SeedingOff(config: Config) {
    config.seedUsername == "" || config.seedPassword == ""
  }

  function SeedUser(config: Config, salt: nat): User {
    User(config.seedUsername, Hash(config.seedPassword, salt), "admin", true)
  }

  function RoleName(role: Role): string {
    match role
    case Viewer => "viewer"
    case Operator => "operator"
    case Admin => "admin"
  }

  function Commit(s: State, user: User, conflict: Verdict): (State, Verdict) {
    match Insert(s.rows, user)
    case Some(rows) => (s.(rows := rows), Done)
    case None => (s, conflict)
  }

  function Step(config: Config, s: State, e: Event): (State, Verdict) {
    match e
    case Tick(seconds) => (s.(clock := s.clock + seconds), Done)
    case Login(username, password) => Grant(config, s, LoginUser(s, username, password))
    case Renew(token) => Grant(config, s, RenewUser(s, token))
    case Guard(token, need) => (s, Admission(Require(CurrentUser(s, token), need)))
    case Handshake(token, need) => (s, Admission(Require(SocketUser(s, token), need)))
    case RegisterAdmit(id, token, username, hash, role) =>
      var caller := Require(CurrentUser(s, token), Admin);
      if caller.Success? && !WellFormed(username, hash.plain) then (s, Refused(422))
      else if caller.Failure? || id in s.admitted then (s, Admission(caller))
      else (s.(admitted := s.admitted[id := User(username, hash, RoleName(role), true)]), Admission(caller))
    case RegisterCommit(id) =>
      if id !in s.admitted then (s, Done)
      else Commit(s.(admitted := s.admitted - {id}), s.admitted[id], Refused(409))
    case SeedCheck(worker) =>
      if SeedingOff(config) || Find(s.rows, config.seedUsername).Some? then (s, Done)
      else (s.(seeding := s.seeding + {worker}), Done)
    case SeedCommit(worker, salt) =>
      if worker !in s.seeding then (s, Done)
      else Commit(s.(seeding := s.seeding - {worker}), SeedUser(config, salt), Crashed)
    case Deactivate(username) =>
      match Find(s.rows, username)
      case Some(i) => (s.(rows := s.rows[i := s.rows[i].(active := false)]), Done)
      case None => (s, Done)
  }

  /** The state after the first `n` events of a run. */
  function At(config: Config, s: State, es: seq<Event>, n: nat): State
    requires n <= |es|
  {
    if n == 0 then s else Step(config, At(config, s, es, n - 1), es[n - 1]).0
  }

  function VerdictAt(config: Config, s: State, es: seq<Event>, n: nat): Verdict
    requires n < |es|
  {
    Step(config, At(config, s, es, n), es[n]).1
  }

  ghost predicate UniqueNames(rows: seq<User>) {
    forall i, j :: 0 <= i < j < |rows| ==> rows[i].username != rows[j].username
  }

  /** A server that has issued nothing yet, on a table that the unique index accepts. */
  ghost predicate Start(s: State) {
    UniqueNames(s.rows) && s.issued == [] && s.admitted == map[] && s.seeding == {}
  }
}
