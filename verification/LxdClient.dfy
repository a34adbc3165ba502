/** The LXD client: its lazily built transport, and the normalisation of LXD's response envelopes. */
module LxdClient {
  import opened Wrappers
  import opened Errors
  import Paths

  /** A JSON value as the code inspects it; `Other` keeps the text and truth value of the rest. */
  datatype Json = Null | Text(text: string) | Dict(fields: map<string, Json>) | Other(repr: string, truthy: bool)

  predicate Truthy(j: Json) {
    match j
    case Null => false
    case Text(text) => text != ""
    case Dict(fields) => fields != map[]
    case Other(_, truthy) => truthy
  }

  datatype EnvelopeKind = Sync | Async | Error

  datatype Body =
    | Empty
    | Malformed
    | Envelope(kind: EnvelopeKind, status: Option<string>, operation: Option<string>, metadata: Json,
               errorCode: Option<int>)

  /** What comes back over the wire: nothing at all, or an HTTP status with a body. */
  datatype Wire = Unreachable | Reply(status: int, body: Body)

  function OrNull(text: Option<string>): Json {
    if text.Some? then Text(text.value) else Null
  }

  /** `envelope.error_code or response.status_code`. */
  function EffectiveCode(errorCode: Option<int>, status: int): int {
    if errorCode.Some? && errorCode.value != 0 then errorCode.value else status
  }

  /** What `request` returns or raises for a response. */
  function Normalise(wire: Wire): Result<Json, LxdError> {
    match wire
    case Unreachable => Failure(LxdError(Connection, 0))
    case Reply(status, Empty) => Success(Null)
    case Reply(status, Malformed) => Failure(LxdError(Base, status))
    case Reply(status, Envelope(kind, text, operation, metadata, errorCode)) =>
      match kind
      case Error => Failure(ErrorForStatus(EffectiveCode(errorCode, status)))
      case Async =>
        if metadata != Null then Success(metadata)
        else Success(Dict(map["operation" := OrNull(operation), "status" := OrNull(text)]))
      case Sync => Success(metadata)
  }

  predicate IsErrorEnvelope(wire: Wire) {
    wire.Reply? && wire.body.Envelope? && wire.body.kind == Error
  }

  /**
   * From envelope to HTTP status. An error envelope never reaches the caller as a payload; with
   * effective code c, its own error code unless that is missing or zero and else the response's
   * status, it is answered 403 when c is 401 or 403, 500 when c is 0, and c otherwise. A
   * transport failure is answered 503 and an unreadable body with its own status, or 500.
   */
  lemma ErrorPipeline(wire: Wire)
    ensures Normalise(wire).Failure?
            <==> wire.Unreachable? || (wire.Reply? && wire.body.Malformed?) || IsErrorEnvelope(wire)
    ensures wire.Unreachable? ==> HttpStatus(Normalise(wire).error) == 503
    ensures wire.Reply? && wire.body.Malformed? ==>
              HttpStatus(Normalise(wire).error) == if wire.status != 0 then wire.status else 500
    ensures IsErrorEnvelope(wire) ==>
              var own := wire.body.errorCode;
              var c := if own == None || own == Some(0) then wire.status else own.value;
              HttpStatus(Normalise(wire).error) == if c == 401 || c == 403 then 403 else if c == 0 then 500 else c
  {
  }

  /**
   * What reaches the caller otherwise: nothing for an empty body, else LXD's metadata unchanged; only
   * an async answer without any is replaced, by its operation URL and status.
   */
  lemma PayloadPassesThrough(wire: Wire)
    requires wire.Reply? && !wire.body.Malformed? && !IsErrorEnvelope(wire)
    ensures Normalise(wire).Success?
    ensures var j := Normalise(wire).value;
            if wire.body.Empty? then j == Null
            else if wire.body.kind == Sync || wire.body.metadata != Null then j == wire.body.metadata
            else
              && j.Dict? && j.fields.Keys == {"operation", "status"}
              && j.fields["operation"] == (match wire.body.operation case Some(url) => Text(url) case None => Null)
              && j.fields["status"] == (match wire.body.status case Some(text) => Text(text) case None => Null)
  {
  }

  /**
   * An error envelope is answered with an error status exactly when its effective code is zero or
   * at least 400: an error that LXD sends with status 200 and no code of its own is passed on as 200.
   */
  lemma ErrorsLookLikeErrors(wire: Wire)
    requires IsErrorEnvelope(wire)
    ensures HttpStatus(Normalise(wire).error) >= 400
            <==> (var c := EffectiveCode(wire.body.errorCode, wire.status); c == 0 || c >= 400)
    ensures wire.body.errorCode.None? && wire.status == 200 ==> HttpStatus(Normalise(wire).error) == 200
  {
  }

  /** The shared client. Transports are numbered in the order they are built. */
  class Client {
    var current: Option<nat>
    var built: nat
    var requested: seq<string>
    ghost var closed: set<nat>

    /** Every transport ever built has been closed, except the current one. */
    ghost predicate Valid()
      reads this
    {
      && (current.Some? ==> current.value < built)
      && closed == set i: nat | i < built && current != Some(i)
    }

    constructor ()
      ensures Valid() && current == None && built == 0 && requested == []
    {
      current, built, requested, closed := None, 0, [], {};
    }

    /** The `client` property: the cached transport, building one when there is none. */
    method Transport() returns (t: nat)
      requires Valid()
      modifies this`current, this`built
      ensures Valid() && current == Some(t) && t !in closed
      ensures if old(current).Some? then t == old(current).value && built == old(built)
              else t == old(built) && built == old(built) + 1
    {
      if current.None? {
        current := Some(built);
        built := built + 1;
      }
      t := current.value;
    }

    /** Closing twice, or before first use, does nothing. */
    method Close()
      requires Valid()
      modifies this`current, this`closed
      ensures Valid() && current == None
      ensures closed == old(closed) + if old(current).Some? then {old(current).value} else {}
    {
      if current.Some? {
        closed := closed + {current.value};
        current := None;
      }
    }

    /** One call to LXD on an open transport; the response is normalised. */
    method Request(path: string, wire: Wire) returns (r: Result<Json, LxdError>)
      requires Valid()
      modifies this`current, this`built, this`requested
      ensures Valid() && current.Some? && current.value !in closed
      ensures old(current).Some? ==> current == old(current) && built == old(built)
      ensures requested == old(requested) + [Paths.Url(path)]
      ensures r == Normalise(wire)
    {
      var url := if path != "" && path[0] == '/' then path else "/1.0/" + path;
      var transport := Transport();
      requested := requested + [url];
      if wire.Unreachable? {
        return Failure(LxdError(Connection, 0));
      }
      var body := wire.body;
      if body.Empty? {
        return Success(Null);
      }
      if body.Malformed? {
        return Failure(LxdError(Base, wire.status));
      }
      if body.kind == Error {
        var code := if body.errorCode.Some? && body.errorCode.value != 0 then body.errorCode.value else wire.status;
        return Failure(ErrorForStatus(code));
      }
      if body.kind == Async {
        if body.metadata != Null {
          return Success(body.metadata);
        }
        return Success(Dict(map["operation" := OrNull(body.operation), "status" := OrNull(body.status)]));
      }
      return Success(body.metadata);
    }
  }
}
