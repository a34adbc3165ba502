/** Waiting for an operation, and the routes that offer `?wait=true`. */
module Waiting {
  import opened Wrappers
  import opened Errors
  import opened LxdClient
  import opened References
  import Lifecycle
  import Paths

  datatype Param = Seconds(seconds: real) | Name(name: string)

  /** The status of a waited-for operation that ended badly. */
  predicate EndedBadly(j: Json) {
    && j.Dict? && "status" in j.fields
    && (j.fields["status"] == Text("Failure") || j.fields["status"] == Text("Cancelled"))
  }

  /** What `wait_for_operation` makes of LXD's answer. */
  function Awaited(wire: Wire): Result<Json, LxdError> {
    match Normalise(wire)
    case Failure(error) => Failure(error)
    case Success(j) =>
      if EndedBadly(j) then Failure(LxdError(ErrorClass.Operation, 0))
      else Success(if j.Dict? then j else Dict(map[]))
  }

  function WaitParams(timeout: real, project: Option<string>): map<string, Param> {
    (if timeout > 0.0 then map["timeout" := Seconds(timeout)] else map[])
    + (if project.Some? && project.value != "" then map["project" := Name(project.value)] else map[])
  }

  /** A wait is bounded only by a positive timeout, and belongs to a project only when one is named. */
  lemma WaitParamsExactly(timeout: real, project: Option<string>)
    ensures var params := WaitParams(timeout, project);
            && params.Keys <= {"timeout", "project"}
            && ("timeout" in params <==> timeout > 0.0)
            && ("timeout" in params ==> params["timeout"] == Seconds(timeout))
            && ("project" in params <==> project != None && project != Some(""))
            && ("project" in params ==> params["project"] == Name(project.value))
  {
    assert "timeout"[0] != "project"[0];
  }

  method WaitForOperation(client: Client, id: string, timeout: real, project: Option<string>, wire: Wire)
    returns (r: Result<Json, LxdError>, params: map<string, Param>)
    requires client.Valid()
    modifies client
    ensures client.Valid() && client.requested == old(client.requested) + [OperationUrl(id) + "/wait"]
    ensures r == Awaited(wire) && params == WaitParams(timeout, project)
  {
    params := map[];
    if timeout > 0.0 {
      params := params["timeout" := Seconds(timeout)];
    }
    if project.Some? && project.value != "" {
      params := params["project" := Name(project.value)];
    }
    var result := client.Request("operations/" + id + "/wait", wire);
    assert Paths.Url("operations/" + id + "/wait") == OperationUrl(id) + "/wait";
    if result.Failure? {
      return Failure(result.error), params;
    }
    if result.value.Dict? && "status" in result.value.fields {
      var status := result.value.fields["status"];
      if status == Text("Failure") || status == Text("Cancelled") {
        return Failure(LxdError(ErrorClass.Operation, 0)), params;
      }
    }
    return Success(if result.value.Dict? then result.value else Dict(map[])), params;
  }

  /** `wait_operation`: the outcome of a wait as an HTTP reply. */
  method WaitOperation(client: Client, id: string, timeout: real, project: Option<string>, wire: Wire)
    returns (r: Result<Json, int>, params: map<string, Param>)
    requires client.Valid()
    modifies client
    ensures client.Valid() && client.requested == old(client.requested) + [OperationUrl(id) + "/wait"]
    ensures params == WaitParams(timeout, project)
    ensures r.Success? <==> Normalise(wire).Success? && !EndedBadly(Normalise(wire).value)
    ensures Normalise(wire).Failure? ==> r == Failure(HttpStatus(Normalise(wire).error))
    ensures Normalise(wire).Success? && EndedBadly(Normalise(wire).value) ==> r == Failure(500)
    ensures r.Success? ==> r.value == if Normalise(wire).value.Dict? then Normalise(wire).value else Dict(map[])
  {
    var result: Result<Json, LxdError>;
    result, params := WaitForOperation(client, id, if timeout > 0.0 then timeout else 0.0, project, wire);
    if result.Failure? {
      return Failure(if result.error.kind == ErrorClass.Operation then 500 else HttpStatus(result.error)), params;
    }
    return Success(result.value), params;
  }

  // ---- Routes with ?wait=true ----

  datatype Answer = Accepted(ref: AsyncRef) | Succeeded(operationId: string) | HttpError(status: int)

  /** The answer of a route whose action LXD answers with `action` and whose wait it answers with `waited`. */
  function Answered(action: Wire, wait: bool, waited: Wire): Answer {
    match Normalise(action)
    case Failure(error) => HttpError(HttpStatus(error))
    case Success(metadata) =>
      match ToAsyncRef(metadata)
      case Failure(_) => HttpError(500)
      case Success(ref) =>
        if !wait || ref.operationId == "" then Accepted(ref)
        else if Awaited(waited).Failure? then HttpError(500)
        else Succeeded(ref.operationId)
  }

  /** The operation such a route waits for if asked to: the one its reference names. */
  function Awaits(action: Wire): Option<string> {
    if Normalise(action).Failure? || ToAsyncRef(Normalise(action).value).Failure? then None
    else var id := ToAsyncRef(Normalise(action).value).value.operationId;
         if id == "" then None else Some(id)
  }

  /** The URLs requested by such a route: the action's, then the wait's when there is one. */
  function Requests(actionUrl: string, action: Wire, wait: bool): seq<string> {
    if wait && Awaits(action).Some? then [actionUrl, OperationUrl(Awaits(action).value) + "/wait"] else [actionUrl]
  }

  /** Only operation errors are caught here; any other exception ends in the global handler's 500. */
  method SetInstanceState(client: Client, name: string, project: Option<string>, action: Wire, wait: bool, waited: Wire)
    returns (r: Answer)
    requires client.Valid()
    modifies client
    ensures client.Valid() && r == Answered(action, wait, waited)
    ensures client.requested
            == old(client.requested) + Requests(Paths.Url("instances/" + name + "/state"), action, wait)
  {
    var result := client.Request("instances/" + name + "/state", action);
    if result.Failure? {
      return HttpError(HttpStatus(result.error));
    }
    var ref := ToAsyncRef(result.value);
    if ref.Failure? {
      return HttpError(500);
    }
    if wait && ref.value.operationId != "" {
      var outcome, _ := WaitForOperation(client, ref.value.operationId, 0.0, project, waited);
      if outcome.Failure? && outcome.error.kind == ErrorClass.Operation {
        return HttpError(500);
      }
      if outcome.Failure? {
        return HttpError(500);
      }
      return Succeeded(ref.value.operationId);
    }
    return Accepted(ref.value);
  }

  /** Snapshot creation, snapshot restore and backup creation share this shape; any error is a 500. */
  method CreateSnapshot(client: Client, name: string, project: Option<string>, action: Wire, wait: bool, waited: Wire)
    returns (r: Answer)
    requires client.Valid()
    modifies client
    ensures client.Valid() && r == Answered(action, wait, waited)
    ensures client.requested
            == old(client.requested) + Requests(Paths.Url("instances/" + name + "/snapshots"), action, wait)
  {
    var result := client.Request("instances/" + name + "/snapshots", action);
    if result.Failure? {
      return HttpError(HttpStatus(result.error));
    }
    r := Conclude(client, project, result.value, wait, waited);
  }

  method RestoreSnapshot(client: Client, name: string, project: Option<string>, action: Wire, wait: bool, waited: Wire)
    returns (r: Answer)
    requires client.Valid()
    modifies client
    ensures client.Valid() && r == Answered(action, wait, waited)
    ensures client.requested == old(client.requested) + Requests(Paths.Url("instances/" + name), action, wait)
  {
    var result := client.Request("instances/" + name, action);
    if result.Failure? {
      return HttpError(HttpStatus(result.error));
    }
    r := Conclude(client, project, result.value, wait, waited);
  }

  method CreateBackup(client: Client, name: string, project: Option<string>, action: Wire, wait: bool, waited: Wire)
    returns (r: Answer)
    requires client.Valid()
    modifies client
    ensures client.Valid() && r == Answered(action, wait, waited)
    ensures client.requested
            == old(client.requested) + Requests(Paths.Url("instances/" + name + "/backups"), action, wait)
  {
    var result := client.Request("instances/" + name + "/backups", action);
    if result.Failure? {
      return HttpError(HttpStatus(result.error));
    }
    r := Conclude(client, project, result.value, wait, waited);
  }

  /** The tail those three routes have in common. */
  method Conclude(client: Client, project: Option<string>, metadata: Json, wait: bool, waited: Wire) returns (r: Answer)
    requires client.Valid()
    modifies client
    ensures client.Valid()
    ensures var ref := ToAsyncRef(metadata);
            var waits := ref.Success? && wait && ref.value.operationId != "";
            && client.requested
               == old(client.requested) + (if waits then [OperationUrl(ref.value.operationId) + "/wait"] else [])
            && r == if ref.Failure? then HttpError(500) else if !waits then Accepted(ref.value)
                    else if Awaited(waited).Failure? then HttpError(500) else Succeeded(ref.value.operationId)
  {
    var ref := ToAsyncRef(metadata);
    if ref.Failure? {
      return HttpError(500);
    }
    if wait && ref.value.operationId != "" {
      var outcome, _ := WaitForOperation(client, ref.value.operationId, 0.0, project, waited);
      if outcome.Failure? {
        return HttpError(500);
      }
      return Succeeded(ref.value.operationId);
    }
    return Accepted(ref.value);
  }

  // ---- What a success report is worth ----

  /** What LXD takes a request for, from its URL. */
  function Addressed(url: string): Option<Paths.Resource> {
    Paths.Identify(Paths.Split(Paths.PathPart(url)))
  }

  /**
   * At moment `i` LXD answers the unbounded wait that a URL addresses with an error, or with that
   * operation in the terminal state it has reached. Nothing is assumed of any other answer.
   */
  ghost predicate HonestWait(operations: Lifecycle.Operations, url: string, waited: Wire, i: nat) {
    match Addressed(url)
    case Some(Wait(id)) =>
      Normalise(waited).Success? ==>
        && id in operations && i < |operations[id]| && Lifecycle.Terminal(operations[id][i])
        && Normalise(waited).value.Dict? && "status" in Normalise(waited).value.fields
        && Normalise(waited).value.fields["status"] == Text(Lifecycle.StatusName(operations[id][i]))
    case _ => true
  }

  /** The last request of a route was answered so, by an LXD with these operations. */
  ghost predicate WaitsHonestly(operations: Lifecycle.Operations, actionUrl: string, action: Wire, wait: bool,
                                waited: Wire, i: nat)
  {
    var urls := Requests(actionUrl, action, wait);
    Lifecycle.Lives(operations) && HonestWait(operations, urls[|urls| - 1], waited, i)
  }

  /** From moment `i` on, operation `id` exists and has succeeded. */
  ghost predicate SucceededFor(operations: Lifecycle.Operations, id: string, i: nat) {
    && id in operations && i < |operations[id]|
    && forall k :: i <= k < |operations[id]| ==> operations[id][k].Success?
  }

  /** At some time in its life operation `id` failed or was cancelled. */
  ghost predicate EverEndedBadly(operations: Lifecycle.Operations, id: string) {
    id in operations && exists k :: 0 <= k < |operations[id]| && Lifecycle.Bad(operations[id][k])
  }

  /** A wait's URL addresses the wait for the operation named exactly when the name is plain. */
  lemma WaitIsAddressed(id: string)
    ensures Addressed(OperationUrl(id) + "/wait") == Some(Paths.Wait(id)) <==> Paths.Plain(id)
  {
    var url := OperationUrl(id) + "/wait";
    if Paths.Plain(id) {
      WaitUrl(id);
      Paths.PathIdentifies(Paths.Wait(id));
    }
    Paths.PathPartsArePlain(url);
  }

  lemma JoinedWait(id: string)
    ensures Paths.Join(["operations", id, "wait"]) == "operations" + "/" + (id + "/" + "wait")
  {
    assert ["operations", id, "wait"][1..] == [id, "wait"] && [id, "wait"][1..] == ["wait"];
    assert Paths.Join([id, "wait"]) == id + "/" + "wait";
  }

  lemma WaitUrl(id: string)
    requires Paths.Plain(id)
    ensures Paths.WellNamed(Paths.Wait(id)) && Paths.ResourceUrl(Paths.Wait(id)) == OperationUrl(id) + "/wait"
  {
    WaitParts(id);
    JoinedWait(id);
    var base := "/1.0/operations/";
    Paths.Regroup("/1.0/", "operations", id + "/" + "wait");
    assert "/1.0/" + "operations" + "/" == base;
    Paths.Regroup(base, id, "wait");
    assert base + id + "/" + "wait" == base + id + "/wait";
  }

  lemma WaitParts(id: string)
    requires Paths.Plain(id)
    ensures Paths.WellNamed(Paths.Wait(id)) && Paths.Parts(Paths.Wait(id)) == ["operations", id, "wait"]
  {
    assert Paths.Parts(Paths.Wait(id)) == ["operations", id, "wait"];
  }

  /**
   * Through all four routes, asked to wait or not, and whatever operations LXD has: success is
   * reported for an operation exactly when the route was asked to wait, the action's reference names
   * it, the wait was answered without error, and the operation itself has succeeded. It then stays so
   * for ever; an operation that at any time failed or was cancelled is never reported as a success;
   * and none is unless its own wait was requested.
   */
  lemma SuccessMeansSuccess(operations: Lifecycle.Operations, actionUrl: string, action: Wire, wait: bool,
                            waited: Wire, i: nat, id: string)
    requires WaitsHonestly(operations, actionUrl, action, wait, waited, i) && Paths.Plain(id)
    ensures Answered(action, wait, waited) == Succeeded(id)
            <==> wait && Awaits(action) == Some(id) && Normalise(waited).Success? && SucceededFor(operations, id, i)
    ensures EverEndedBadly(operations, id) ==> Answered(action, wait, waited) != Succeeded(id)
    ensures Answered(action, wait, waited) == Succeeded(id) ==>
              Requests(actionUrl, action, wait) == [actionUrl, "/1.0/operations/" + id + "/wait"]
  {
    WaitIsAddressed(id);
    if wait && Awaits(action) == Some(id) && Normalise(waited).Success? {
      var history := operations[id];
      Lifecycle.NamesDiffer(history[i]);
      forall k | 0 <= k < |history| && (i <= k || Lifecycle.Terminal(history[k]))
        ensures history[k] == history[i]
      {
        Lifecycle.TerminalAbsorbs(history, if i <= k then i else k, if i <= k then k else i);
      }
    }
  }

  /** An action answered with a bare operation of this name. */
  function Started(id: string): Wire {
    Reply(202, Envelope(Async, None, None, Dict(map["id" := Text(id)]), None))
  }

  lemma StartedNames(id: string)
    requires id != ""
    ensures Awaits(Started(id)) == Some(id)
    ensures forall url :: Requests(url, Started(id), true) == [url, OperationUrl(id) + "/wait"]
  {
  }

  /** A wait honestly answered for another operation, or for none. */
  lemma Misreported(id: string) returns (operations: Lifecycle.Operations, waited: Wire)
    requires id != "" && !Paths.Plain(id)
    ensures WaitsHonestly(operations, "", Started(id), true, waited, 0)
    ensures Answered(Started(id), true, waited) == Succeeded(id) && id !in operations
  {
    StartedNames(id);
    WaitIsAddressed(id);
    var addressed := Addressed(OperationUrl(id) + "/wait");
    operations := map[];
    if addressed.Some? && addressed.value.Wait? {
      operations := map[addressed.value.id := [Lifecycle.Success]];
    }
    waited := Reply(200, Envelope(Sync, None, None, Dict(map["status" := Text("Success")]), None));
    assert !EndedBadly(Normalise(waited).value) by {
      Lifecycle.NamesDiffer(Lifecycle.Success);
    }
  }

  /**
   * The wait is for the operation named only if its name is plain: for any other identifier there
   * is an LXD that answers every wait honestly and a success report without such an operation.
   */
  lemma ReportsNeedPlainNames(id: string)
    requires id != ""
    ensures (forall operations, actionUrl, waited, i |
               WaitsHonestly(operations, actionUrl, Started(id), true, waited, i) ::
               Answered(Started(id), true, waited) == Succeeded(id) ==> SucceededFor(operations, id, i))
            <==> Paths.Plain(id)
  {
    if Paths.Plain(id) {
      forall operations, actionUrl, waited, i | WaitsHonestly(operations, actionUrl, Started(id), true, waited, i)
        ensures Answered(Started(id), true, waited) == Succeeded(id) ==> SucceededFor(operations, id, i)
      {
        SuccessMeansSuccess(operations, actionUrl, Started(id), true, waited, i, id);
      }
    } else {
      var operations, waited := Misreported(id);
    }
  }

  /**
   * Without an honest wait the report follows from less: it says success exactly when the route was
   * asked to wait, the action and the wait were both answered without error, and the wait's answer is
   * not an operation that failed or was cancelled. So a running operation, or an empty body, reads as
   * success.
   */
  lemma SuccessReportedExactly(action: Wire, wait: bool, waited: Wire, id: string)
    ensures Answered(action, wait, waited) == Succeeded(id) <==>
              && wait && id != "" && Normalise(action).Success? && ToAsyncRef(Normalise(action).value).Success?
              && ToAsyncRef(Normalise(action).value).value.operationId == id
              && Normalise(waited).Success?
              && var j := Normalise(waited).value;
                 !(j.Dict? && "status" in j.fields && j.fields["status"] in {Text("Failure"), Text("Cancelled")})
    ensures Answered(Reply(200, Empty), true, Reply(200, Empty)) == Succeeded("None")
    ensures Answered(Reply(202, Envelope(Async, None, None, Dict(map["id" := Text("op")]), None)), true,
                     Reply(200, Envelope(Sync, None, None, Dict(map["status" := Text("Running")]), None)))
            == Succeeded("op")
  {
  }

  /** A route not asked to wait makes one request and hands out the reference, whatever a wait would say. */
  lemma NoWaitNoReport(actionUrl: string, action: Wire, waited: Wire)
    ensures Requests(actionUrl, action, false) == [actionUrl]
    ensures Normalise(action).Success? && ToAsyncRef(Normalise(action).value).Success? ==>
              Answered(action, false, waited) == Accepted(ToAsyncRef(Normalise(action).value).value)
  {
  }

  /** What LXD answered names no operation, though a reference can be built from it. */
  predicate NamesNone(j: Json) {
    if j.Dict? then
      && ("id" in j.fields ==> j.fields["id"] == Text(""))
      && ("operation" in j.fields && Truthy(j.fields["operation"]) ==> j.fields["operation"].Text?)
    else PyText(j) == ""
  }

  /**
   * A route asked to wait accepts without waiting exactly when LXD's answer names no operation;
   * an async answer without metadata never does, whatever operation URL came with it.
   */
  lemma WaitNeedsIdentifier(actionUrl: string, action: Wire, waited: Wire)
    ensures Answered(action, true, waited).Accepted?
            <==> Normalise(action).Success? && NamesNone(Normalise(action).value)
    ensures Answered(action, true, waited).Accepted? ==>
              ToAsyncRef(Normalise(action).value) == Success(Answered(action, true, waited).ref)
    ensures Requests(actionUrl, action, true) == [actionUrl]
            <==> Answered(action, true, waited).Accepted? || Answered(action, false, waited).HttpError?
    ensures action.Reply? && action.body.Envelope? && action.body.kind == Async && action.body.metadata == Null ==>
              Answered(action, true, waited).Accepted?
  {
  }

  /**
   * When the answer is an error: LXD's own status, translated, if the action failed; 500 if no
   * reference can be built from its answer, and 500 if it waited and the wait failed or ended badly.
   */
  lemma ErrorAnswers(action: Wire, wait: bool, waited: Wire)
    ensures Normalise(action).Failure? ==>
              Answered(action, wait, waited) == HttpError(HttpStatus(Normalise(action).error))
    ensures Normalise(action).Success? ==>
              (Answered(action, wait, waited).HttpError? <==>
                 || ToAsyncRef(Normalise(action).value).Failure?
                 || (wait && Awaits(action).Some?
                     && (Normalise(waited).Failure? || EndedBadly(Normalise(waited).value))))
    ensures Normalise(action).Success? && Answered(action, wait, waited).HttpError? ==>
              Answered(action, wait, waited) == HttpError(500)
  {
  }
}
