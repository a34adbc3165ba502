/** The JWTs of the API: their claims, how they are built, and how decoding judges them. */
module Tokens {
  import opened Wrappers

  datatype Claim = Text(text: string) | Instant(seconds: int)

  /** The payload of a token, a dictionary from claim names to values. */
  type Claims = map<string, Claim>

  datatype Kind = Access | Refresh

  /** The settings that the session code reads; the seed username is already stripped. */
  datatype Config = Config(accessMinutes: int, refreshDays: int, seedUsername: string, seedPassword: string)

  function KindName(kind: Kind): string {
    if kind == Access then "access" else "refresh"
  }

  /** Lifetimes in seconds. */
  function Lifetime(config: Config, kind: Kind): int {
    if kind == Access then config.accessMinutes * 60 else config.refreshDays * 86400
  }

  /** The `expires_in` that a token reply announces. */
  function ExpiresIn(config: Config): int {
    config.accessMinutes * 60
  }

  /** The payload that `_create_token` signs: its own four claims, then the extra ones on top. */
  function Payload(config: Config, subject: string, kind: Kind, extra: Claims, now: int): Claims {
    map["sub" := Text(subject), "type" := Text(KindName(kind)),
        "iat" := Instant(now), "exp" := Instant(now + Lifetime(config, kind))] + extra
  }

  method CreateToken(config: Config, subject: string, kind: Kind, extra: Option<Claims>, now: int)
    returns (payload: Claims)
    ensures payload == Payload(config, subject, kind, if extra.Some? then extra.value else map[], now)
  {
    var expiresDelta: int;
    if kind == Access {
      expiresDelta := config.accessMinutes * 60;
    } else {
      expiresDelta := config.refreshDays * 86400;
    }
    payload := map["sub" := Text(subject), "type" := Text(KindName(kind)), "iat" := Instant(now)];
    payload := payload["exp" := Instant(now + expiresDelta)];
    if extra.Some? && extra.value != map[] {
      payload := payload + extra.value;
    }
  }

  function AccessPayload(config: Config, subject: string, role: string, now: int): Claims {
    Payload(config, subject, Access, map["role" := Text(role)], now)
  }

  function RefreshPayload(config: Config, subject: string, now: int): Claims {
    Payload(config, subject, Refresh, map[], now)
  }

  /** `payload.get("type") == kind`. */
  predicate HasKind(claims: Claims, kind: Kind) {
    "type" in claims && claims["type"] == Text(KindName(kind))
  }

  /** `str(payload.get("sub", ""))`. */
  function Subject(claims: Claims): string {
    if "sub" in claims && claims["sub"].Text? then claims["sub"].text else ""
  }

  /** A decimal numeral. */
  function Decimal(digits: string): Option<int> {
    if digits == "" || !('0' <= digits[|digits| - 1] <= '9') then None
    else
      var last := digits[|digits| - 1] as int - '0' as int;
      if |digits| == 1 then Some(last)
      else match Decimal(digits[..|digits| - 1])
           case Some(n) => Some(10 * n + last)
           case None => None
  }

  /** `int(text)`: a numeral with an optional sign. */
  function ReadInt(text: string): Option<int> {
    if text == "" || (text[0] != '-' && text[0] != '+') then Decimal(text)
    else match Decimal(text[1..])
         case Some(n) => Some(if text[0] == '-' then -n else n)
         case None => None
  }

  /** The moment a claim stands for; the decoder reads numeric text as a number too. */
  function NumericDate(claim: Claim): Option<int> {
    match claim
    case Instant(seconds) => Some(seconds)
    case Text(text) => ReadInt(text)
  }

  /** A signed token decodes until its `exp` claim, if it has one, has passed (section 4.1.4 of RFC 7519). */
  predicate Unexpired(claims: Claims, now: int) {
    "exp" in claims ==>
      var end := NumericDate(claims["exp"]);
      end.Some? && now <= end.value
  }

  /**
   * Extra claims are laid over the token's own, so the token is of the kind asked for, names the
   * subject and dies at the end of its lifetime whatever the clock, exactly when no extra claim
   * rebinds one of them to something else.
   */
  lemma ExtraClaimsCanRebind(config: Config, subject: string, kind: Kind, extra: Claims, now: int)
    ensures var token := Payload(config, subject, kind, extra, now);
            && (HasKind(token, kind) <==> ("type" in extra ==> extra["type"] == Text(KindName(kind))))
            && (token["sub"] == Text(subject) <==> ("sub" in extra ==> extra["sub"] == Text(subject)))
            && ((forall t :: Unexpired(token, t) <==> t <= now + Lifetime(config, kind))
                <==> ("exp" in extra ==> NumericDate(extra["exp"]) == Some(now + Lifetime(config, kind))))
  {
    var token, end := Payload(config, subject, kind, extra, now), now + Lifetime(config, kind);
    if "exp" in extra && NumericDate(extra["exp"]) != Some(end) {
      var stated := NumericDate(extra["exp"]);
      var t := if stated.Some? && stated.value > end then end + 1 else end;
      assert Unexpired(token, t) <==> !(t <= end);
    }
  }

  /** The two constructors in use lay over nothing but a role, so their kinds are exclusive. */
  lemma KindsAreExclusive(config: Config, subject: string, role: string, now: int)
    ensures HasKind(AccessPayload(config, subject, role, now), Access)
    ensures !HasKind(AccessPayload(config, subject, role, now), Refresh)
    ensures HasKind(RefreshPayload(config, subject, now), Refresh)
    ensures !HasKind(RefreshPayload(config, subject, now), Access)
  {
    assert KindName(Access)[0] != KindName(Refresh)[0];
  }

  /** The decimal numeral of a number. */
  function Show(n: nat): (text: string)
    ensures text != "" && forall i :: 0 <= i < |text| ==> '0' <= text[i] <= '9'
  {
    var last := ('0' as int + n % 10) as char;
    if n < 10 then [last] else Show(n / 10) + [last]
  }

  lemma {:induction false} DecimalReadsBack(n: nat)
    ensures Decimal(Show(n)) == Some(n)
  {
    if n >= 10 {
      DecimalReadsBack(n / 10);
      assert Show(n)[..|Show(n)| - 1] == Show(n / 10);
    }
  }

  lemma {:induction false} DecimalOnDigits(text: string)
    ensures Decimal(text).Some? <==> text != "" && forall i :: 0 <= i < |text| ==> '0' <= text[i] <= '9'
  {
    if |text| > 1 {
      DecimalOnDigits(text[..|text| - 1]);
      assert forall i :: 0 <= i < |text| - 1 ==> text[..|text| - 1][i] == text[i];
    }
  }

  /** An `exp` in text stands for the number it shows, with or without a sign. */
  lemma NumericTextReads(n: nat)
    ensures NumericDate(Text(Show(n))) == Some(n) && NumericDate(Text("+" + Show(n))) == Some(n)
    ensures NumericDate(Text("-" + Show(n))).Some? && NumericDate(Text("-" + Show(n))).value + n == 0
  {
    DecimalReadsBack(n);
    assert ("-" + Show(n))[1..] == Show(n) && ("+" + Show(n))[1..] == Show(n);
  }

  /** It stands for a number exactly when it is digits after an optional sign. */
  lemma NumericTextExactly(text: string)
    ensures NumericDate(Text(text)).Some? <==>
              var digits := if text != "" && (text[0] == '-' || text[0] == '+') then text[1..] else text;
              digits != "" && forall i :: 0 <= i < |digits| ==> '0' <= digits[i] <= '9'
  {
    if text != "" && (text[0] == '-' || text[0] == '+') {
      DecimalOnDigits(text[1..]);
    } else {
      DecimalOnDigits(text);
    }
  }
}
