/** The life of an operation inside LXD. */
module Lifecycle {
  datatype Status = Pending | Running | Success | Failure | Cancelled

  function StatusName(status: Status): string {
    match status
    case Pending => "Pending"
    case Running => "Running"
    case Success => "Success"
    case Failure => "Failure"
    case Cancelled => "Cancelled"
  }

  predicate Terminal(status: Status) {
    status.Success? || status.Failure? || status.Cancelled?
  }

  predicate Bad(status: Status) {
    status.Failure? || status.Cancelled?
  }

  /** One step, as LXD is taken to make it: terminal states absorb, and a running one does not go back. */
  predicate Next(before: Status, after: Status) {
    before == after || (!Terminal(before) && after != Pending)
  }

  ghost predicate History(history: seq<Status>) {
    forall k :: 0 < k < |history| ==> Next(history[k - 1], history[k])
  }

  /** LXD's operations, each with its statuses so far, moment by moment. */
  type Operations = map<string, seq<Status>>

  ghost predicate Lives(operations: Operations) {
    forall id :: id in operations ==> History(operations[id])
  }

  lemma {:induction false} TerminalAbsorbs(history: seq<Status>, i: nat, k: nat)
    requires History(history) && i <= k < |history| && Terminal(history[i])
    ensures history[k] == history[i]
    decreases k - i
  {
    if i < k {
      TerminalAbsorbs(history, i, k - 1);
      assert Next(history[k - 1], history[k]);
    }
  }

  lemma NamesDiffer(status: Status)
    ensures StatusName(status) == "Failure" <==> status.Failure?
    ensures StatusName(status) == "Cancelled" <==> status.Cancelled?
  {
    assert |"Failure"| == |"Success"| == |"Pending"| == |"Running"| == 7 && |"Cancelled"| == 9;
    assert "Failure"[0] == 'F' && "Success"[0] == 'S' && "Pending"[0] == 'P' && "Running"[0] == 'R';
  }
}
