/**
 * Exactly which schedules of reads and patches make the two-step protocol equal to atomic edits:
 * those in which no request patches an instance between another request's read and patch of it.
 */
module DeviceSchedules {
  import opened Wrappers
  import opened Devices
  import opened DeviceProtocol

  predicate Ready(calls: Calls, store: Store, es: seq<Event>, n: nat)
    requires n < |es|
  {
    Enabled(calls, At(calls, store, es, n), es[n])
  }

  /** Every event of the schedule can happen when its turn comes. */
  ghost predicate Legal(calls: Calls, store: Store, es: seq<Event>) {
    forall n :: 0 <= n < |es| ==> Ready(calls, store, es, n)
  }

  /** Event `j` patches an instance inside the read-to-patch window that runs from `i` to `k`. */
  predicate Straddles(calls: Calls, es: seq<Event>, i: int, j: int, k: int) {
    && 0 <= i < j < k < |es|
    && es[i].Read? && es[k] == Patch(es[i].id)
    && es[j].Patch? && es[j].id != es[i].id
    && es[i].id in calls && es[j].id in calls
    && calls[es[i].id].target == calls[es[j].id].target
  }

  ghost predicate Overlapping(calls: Calls, es: seq<Event>) {
    exists i, j, k :: Straddles(calls, es, i, j, k)
  }

  /** The abstract operation: a request's edit as one atomic step. */
  function Applied(calls: Calls, store: Store, id: nat): Store {
    if id in calls && calls[id].target in store then
      store[calls[id].target := calls[id].Edit().Apply(store[calls[id].target])]
    else store
  }

  /** The requests' edits applied atomically, one after the other. */
  function InOrder(calls: Calls, store: Store, order: seq<nat>): Store {
    if order == [] then store else Applied(calls, InOrder(calls, store, order[..|order| - 1]), order[|order| - 1])
  }

  /** The requests that patched, in patch order. */
  function Patched(es: seq<Event>): seq<nat> {
    if es == [] then [] else
    Patched(es[..|es| - 1]) + if es[|es| - 1].Patch? then [es[|es| - 1].id] else []
  }

  /** The abstract store: each successful patch applies its edit atomically, in patch order. */
  function Atomic(calls: Calls, store: Store, es: seq<Event>, n: nat): Store
    requires n <= |es|
  {
    InOrder(calls, store, Patched(es[..n]))
  }

  lemma AtomicStep(calls: Calls, store: Store, es: seq<Event>, n: nat)
    requires 0 < n <= |es|
    ensures Atomic(calls, store, es, n)
            == if es[n - 1].Patch? then Applied(calls, Atomic(calls, store, es, n - 1), es[n - 1].id)
               else Atomic(calls, store, es, n - 1)
  {
    assert es[..n][..n - 1] == es[..n - 1];
    var before := Patched(es[..n - 1]);
    assert (before + [es[n - 1].id])[..|before|] == before;
    assert before + [] == before;
  }

  /** The calls name the same instances; the edits may be any. */
  predicate SameShape(calls: Calls, calls': Calls) {
    calls.Keys == calls'.Keys && forall id :: id in calls ==> calls[id].target == calls'[id].target
  }

  /** A run ends like the edits of the requests that patched, each made once and atomically, in this order. */
  predicate EndsLike(calls: Calls, store: Store, es: seq<Event>, order: seq<nat>) {
    multiset(order) == multiset(Patched(es)) && At(calls, store, es, |es|).store == InOrder(calls, store, order)
  }

  /** For every choice of edits and of initial devices, some order of atomic edits explains the end. */
  ghost predicate Serializable(calls: Calls, store: Store, es: seq<Event>) {
    forall calls': Calls, store': Store :: SameShape(calls, calls') && store'.Keys == store.Keys ==>
      exists order :: EndsLike(calls', store', es, order)
  }

  /** For every choice of edits and of initial devices, patch order explains the end. */
  ghost predicate SerializableAsPatched(calls: Calls, store: Store, es: seq<Event>) {
    forall calls': Calls, store': Store :: SameShape(calls, calls') && store'.Keys == store.Keys ==>
      EndsLike(calls', store', es, Patched(es))
  }

  // ---- Bookkeeping facts about legal runs ----

  lemma {:induction false} Bookkeeping(calls: Calls, store: Store, es: seq<Event>, n: nat)
    requires n <= |es|
    ensures var s := At(calls, store, es, n);
            s.store.Keys == store.Keys && s.flights.Keys <= s.started <= calls.Keys
  {
    if n > 0 {
      Bookkeeping(calls, store, es, n - 1);
    }
  }

  /** A request in flight has read, and the event that read it can be named. */
  lemma {:induction false} ReadBefore(calls: Calls, store: Store, es: seq<Event>, n: nat, id: nat) returns (i: nat)
    requires n <= |es| && id in At(calls, store, es, n).flights
    ensures i < n && es[i] == Read(id)
  {
    if id in At(calls, store, es, n - 1).flights {
      i := ReadBefore(calls, store, es, n - 1, id);
    } else {
      i := n - 1;
    }
  }

  lemma {:induction false} StartedForGood(calls: Calls, store: Store, es: seq<Event>, m: nat, n: nat)
    requires m <= n <= |es|
    ensures At(calls, store, es, m).started <= At(calls, store, es, n).started
    decreases n - m
  {
    if m < n {
      StartedForGood(calls, store, es, m, n - 1);
    }
  }

  /** A request that is in flight at two moments held the same copy all along. */
  lemma {:induction false} CopyIsFixed(calls: Calls, store: Store, es: seq<Event>, m: nat, n: nat, id: nat)
    requires m <= n <= |es|
    requires id in At(calls, store, es, m).started && id in At(calls, store, es, n).flights
    ensures id in At(calls, store, es, m).flights
    ensures At(calls, store, es, m).flights[id] == At(calls, store, es, n).flights[id]
    decreases n - m
  {
    if m < n {
      StartedForGood(calls, store, es, m, n - 1);
      CopyIsFixed(calls, store, es, m, n - 1, id);
    }
  }

  /** No request patches twice. */
  lemma PatchesOnce(calls: Calls, store: Store, es: seq<Event>, i: nat, j: nat)
    requires Legal(calls, store, es) && i < j < |es| && es[i].Patch? && es[j].Patch?
    ensures es[i].id != es[j].id
  {
    if es[i].id == es[j].id {
      Bookkeeping(calls, store, es, i);
      assert Ready(calls, store, es, i) && Ready(calls, store, es, j);
      CopyIsFixed(calls, store, es, i + 1, j, es[j].id);
      assert false;
    }
  }

  lemma SameProgressStep(calls: Calls, calls': Calls, s: State, s': State, e: Event)
    requires SameShape(calls, calls')
    requires s.flights.Keys == s'.flights.Keys && s.started == s'.started && s.store.Keys == s'.store.Keys
    ensures Enabled(calls, s, e) == Enabled(calls', s', e)
    ensures var t, t' := Step(calls, s, e), Step(calls', s', e);
            t.flights.Keys == t'.flights.Keys && t.started == t'.started && t.store.Keys == t'.store.Keys
  {
    assert Enabled(calls, s, e) == Enabled(calls', s', e);
  }

  /** Legality depends on the requests' targets only, not on what they edit. */
  lemma {:induction false} SameProgress(calls: Calls, calls': Calls, store: Store, store': Store,
                                        es: seq<Event>, n: nat)
    requires n <= |es| && SameShape(calls, calls') && store'.Keys == store.Keys
    ensures var s, s' := At(calls, store, es, n), At(calls', store', es, n);
            s.flights.Keys == s'.flights.Keys && s.started == s'.started && s.store.Keys == s'.store.Keys
  {
    if n > 0 {
      SameProgress(calls, calls', store, store', es, n - 1);
      SameProgressStep(calls, calls', At(calls, store, es, n - 1), At(calls', store', es, n - 1), es[n - 1]);
    }
  }

  lemma LegalAnyway(calls: Calls, calls': Calls, store: Store, store': Store, es: seq<Event>)
    requires SameShape(calls, calls') && store'.Keys == store.Keys && Legal(calls, store, es)
    ensures Legal(calls', store', es)
  {
    forall n | 0 <= n < |es|
      ensures Ready(calls', store', es, n)
    {
      SameProgress(calls, calls', store, store', es, n);
      SameProgressStep(calls, calls', At(calls, store, es, n), At(calls', store', es, n), es[n]);
      assert Ready(calls, store, es, n);
    }
  }

  // ---- Disjoint windows are serializable ----

  /** With no foreign patch since its read, a copy is the edit of the current devices. */
  lemma {:induction false} CopyIsCurrent(calls: Calls, store: Store, es: seq<Event>, i: nat, n: nat)
    requires i < n <= |es| && es[i].Read? && Ready(calls, store, es, i)
    requires es[i].id in At(calls, store, es, n).flights
    requires forall j :: i < j < n && es[j].Patch? && es[j].id in calls && es[j].id != es[i].id ==>
                           calls[es[j].id].target != calls[es[i].id].target
    ensures var s, call := At(calls, store, es, n), calls[es[i].id];
            call.target in s.store && s.flights[es[i].id] == call.Edit().Apply(s.store[call.target])
    decreases n - i
  {
    if i + 1 < n {
      StartedForGood(calls, store, es, i + 1, n - 1);
      CopyIsCurrent(calls, store, es, i, n - 1);
    }
  }

  lemma {:induction false} DisjointWindowsAreAtomic(calls: Calls, store: Store, es: seq<Event>, n: nat)
    requires n <= |es| && Legal(calls, store, es) && !Overlapping(calls, es)
    ensures At(calls, store, es, n).store == Atomic(calls, store, es, n)
  {
    if n > 0 {
      DisjointWindowsAreAtomic(calls, store, es, n - 1);
      AtomicStep(calls, store, es, n);
      assert Ready(calls, store, es, n - 1);
      if es[n - 1].Patch? {
        var i := ReadBefore(calls, store, es, n - 1, es[n - 1].id);
        assert Ready(calls, store, es, i);
        forall j | i < j < n - 1 && es[j].Patch? && es[j].id in calls && es[j].id != es[i].id
          ensures calls[es[j].id].target != calls[es[i].id].target
        {
          assert !Straddles(calls, es, i, j, n - 1);
        }
        CopyIsCurrent(calls, store, es, i, n - 1);
      }
    }
  }

  // ---- An overlapping window is not: every request attaches a device of its own ----

  /** A key for each request, injective in its number. */
  function Tally(id: nat): string {
    seq(id + 1, _ => 'x')
  }

  lemma TallyInjective(a: nat, b: nat)
    requires Tally(a) == Tally(b)
    ensures a == b
  {
    assert |Tally(a)| == a + 1 && |Tally(b)| == b + 1;
  }

  function Probes(calls: Calls): Calls {
    map id | id in calls :: Call(calls[id].target, AttachNic("lxdbr0", Some(Tally(id)), "eth0"))
  }

  function Emptied(store: Store): Store {
    map t | t in store :: map[]
  }

  lemma ProbeEdits(calls: Calls, id: nat)
    requires id in calls
    ensures Probes(calls)[id].target == calls[id].target
    ensures Probes(calls)[id].Edit() == Put(Tally(id), NicDevice("lxdbr0", "eth0"))
  {
    assert |Tally(id)| == id + 1;
  }

  /** The key of request `b` is in no instance and in no copy but its own. */
  ghost predicate Unseen(s: State, b: nat) {
    && (forall t :: t in s.store ==> Tally(b) !in s.store[t])
    && (forall a :: a in s.flights && a != b ==> Tally(b) !in s.flights[a])
  }

  lemma {:induction false} UnseenBeforePatch(calls: Calls, store: Store, es: seq<Event>, n: nat, b: nat)
    requires n <= |es|
    requires forall j :: 0 <= j < n ==> es[j] != Patch(b)
    ensures Unseen(At(Probes(calls), Emptied(store), es, n), b)
  {
    if n > 0 {
      UnseenBeforePatch(calls, store, es, n - 1, b);
      var s, e := At(Probes(calls), Emptied(store), es, n - 1), es[n - 1];
      assert e != Patch(b);
      if e.id in calls && e.id != b {
        ProbeEdits(calls, e.id);
        if Tally(e.id) == Tally(b) {
          TallyInjective(e.id, b);
        }
      }
    }
  }

  /** Atomic edits, in whatever order, keep every probe that is among them. */
  lemma {:induction false} OrderKeepsProbe(calls: Calls, store: Store, order: seq<nat>, b: nat)
    requires b in order && b in calls && calls[b].target in store
    ensures var stores := InOrder(Probes(calls), Emptied(store), order);
            calls[b].target in stores && Tally(b) in stores[calls[b].target]
  {
    var before, last := order[..|order| - 1], order[|order| - 1];
    OrderKeepsInstances(Probes(calls), Emptied(store), before);
    if last in calls {
      ProbeEdits(calls, last);
    }
    if last != b {
      OrderKeepsProbe(calls, store, before, b);
    }
  }

  lemma {:induction false} OrderKeepsInstances(calls: Calls, store: Store, order: seq<nat>)
    ensures InOrder(calls, store, order).Keys == store.Keys
  {
    if order != [] {
      OrderKeepsInstances(calls, store, order[..|order| - 1]);
    }
  }

  lemma {:induction false} PatchedHolds(es: seq<Event>, j: nat)
    requires j < |es| && es[j].Patch?
    ensures es[j].id in Patched(es)
  {
    if j < |es| - 1 {
      PatchedHolds(es[..|es| - 1], j);
    }
  }

  /** Of the patches whose window is straddled, one is the last. */
  lemma {:induction false} LastStraddled(calls: Calls, es: seq<Event>, i: int, j: int, k: int)
    returns (i': int, j': int, k': int)
    requires Straddles(calls, es, i, j, k)
    ensures Straddles(calls, es, i', j', k')
    ensures forall a, b, c :: Straddles(calls, es, a, b, c) ==> c <= k'
    decreases |es| - k
  {
    if a, b, c :| Straddles(calls, es, a, b, c) && k < c {
      i', j', k' := LastStraddled(calls, es, a, b, c);
    } else {
      i', j', k' := i, j, k;
    }
  }

  /** The key of request `b` is gone from instance `t` and from the copies that may still land there. */
  ghost predicate Gone(calls: Calls, s: State, t: Target, b: nat, doomed: set<nat>) {
    && t in s.store && Tally(b) !in s.store[t]
    && (forall a :: a in s.flights && a in calls && calls[a].target == t && a !in doomed ==>
                      Tally(b) !in s.flights[a])
  }

  lemma StepStaysGone(calls: Calls, s: State, e: Event, t: Target, b: nat, doomed: set<nat>)
    requires Enabled(Probes(calls), s, e) && Gone(calls, s, t, b, doomed)
    requires e.Patch? && calls[e.id].target == t ==> e.id !in doomed
    requires e.Read? ==> e.id != b
    ensures Gone(calls, Step(Probes(calls), s, e), t, b, doomed)
  {
    ProbeEdits(calls, e.id);
    if e.Read? && Tally(e.id) == Tally(b) {
      TallyInjective(e.id, b);
    }
  }

  /** A straddled patch writes a copy read before the request that patched at `j` had done so. */
  lemma PatchDropsKey(calls: Calls, store: Store, es: seq<Event>, i: int, j: int, k: int)
    requires Straddles(calls, es, i, j, k) && Legal(Probes(calls), Emptied(store), es)
    ensures var s := At(Probes(calls), Emptied(store), es, k + 1);
            Gone(calls, s, calls[es[j].id].target, es[j].id, s.flights.Keys)
  {
    var probes, empty := Probes(calls), Emptied(store);
    assert Ready(probes, empty, es, i) && Ready(probes, empty, es, k);
    forall m | 0 <= m < i + 1
      ensures es[m] != Patch(es[j].id)
    {
      if es[m] == Patch(es[j].id) {
        PatchesOnce(probes, empty, es, m, j);
      }
    }
    UnseenBeforePatch(calls, store, es, i + 1, es[j].id);
    CopyIsFixed(probes, empty, es, i + 1, k, es[i].id);
  }

  /**
   * Once the last straddled patch, at `k`, has dropped the key of the request that patched at `j`,
   * the key is gone for good: a copy that may still hold it was read before `k` and never lands.
   */
  lemma {:induction false} DroppedForGood(calls: Calls, store: Store, es: seq<Event>, i: int, j: int, k: int, n: nat)
    requires Straddles(calls, es, i, j, k) && k < n <= |es|
    requires forall a, b, c :: Straddles(calls, es, a, b, c) ==> c <= k
    requires Legal(Probes(calls), Emptied(store), es)
    ensures Gone(calls, At(Probes(calls), Emptied(store), es, n), calls[es[j].id].target, es[j].id,
                 At(Probes(calls), Emptied(store), es, k + 1).flights.Keys)
    decreases n - k
  {
    var probes, empty := Probes(calls), Emptied(store);
    if n == k + 1 {
      PatchDropsKey(calls, store, es, i, j, k);
    } else {
      var t, e, doomed := calls[es[j].id].target, es[n - 1], At(probes, empty, es, k + 1).flights.Keys;
      DroppedForGood(calls, store, es, i, j, k, n - 1);
      assert Ready(probes, empty, es, n - 1);
      if e.Patch? && e.id in doomed {
        LandsStraddled(calls, store, es, k, n - 1);
      }
      if e.Read? && e.id == es[j].id {
        assert Ready(probes, empty, es, j);
        Bookkeeping(probes, empty, es, j);
        StartedForGood(probes, empty, es, j, n - 1);
      }
      StepStaysGone(calls, At(probes, empty, es, n - 1), e, t, es[j].id, doomed);
    }
  }

  /** A request in flight across the patch at `k` that patches the same instance later is straddled. */
  lemma LandsStraddled(calls: Calls, store: Store, es: seq<Event>, k: nat, n: nat)
    requires k < n < |es| && es[k].Patch? && es[n].Patch? && es[k].id in calls && es[n].id in calls
    requires Legal(Probes(calls), Emptied(store), es)
    requires es[n].id in At(Probes(calls), Emptied(store), es, k + 1).flights
    ensures calls[es[n].id].target == calls[es[k].id].target ==> exists r :: Straddles(calls, es, r, k, n)
  {
    var r := ReadBefore(Probes(calls), Emptied(store), es, k + 1, es[n].id);
    PatchesOnce(Probes(calls), Emptied(store), es, k, n);
    assert calls[es[n].id].target == calls[es[k].id].target ==> Straddles(calls, es, r, k, n);
  }

  /**
   * With an overlapping window an update is lost: for some edits and devices no order at all of
   * the edits made, each atomically, ends like the protocol.
   */
  lemma OverlapLosesAnUpdate(calls: Calls, store: Store, es: seq<Event>)
    requires Legal(calls, store, es) && Overlapping(calls, es)
    ensures !Serializable(calls, store, es)
  {
    var probes, empty := Probes(calls), Emptied(store);
    var i, j, k :| Straddles(calls, es, i, j, k);
    i, j, k := LastStraddled(calls, es, i, j, k);
    LegalAnyway(calls, probes, store, empty, es);
    DroppedForGood(calls, store, es, i, j, k, |es|);
    assert Ready(calls, store, es, j);
    Bookkeeping(calls, store, es, j);
    PatchedHolds(es, j);
    forall order: seq<nat>
      ensures !EndsLike(probes, empty, es, order)
    {
      if EndsLike(probes, empty, es, order) {
        assert es[j].id in multiset(order);
        OrderKeepsProbe(calls, store, order, es[j].id);
        assert false;
      }
    }
  }

  lemma DisjointWindowsAreSerializable(calls: Calls, store: Store, es: seq<Event>)
    requires Legal(calls, store, es) && !Overlapping(calls, es)
    ensures SerializableAsPatched(calls, store, es)
  {
    forall calls': Calls, store': Store | SameShape(calls, calls') && store'.Keys == store.Keys
      ensures EndsLike(calls', store', es, Patched(es))
    {
      LegalAnyway(calls, calls', store, store', es);
      forall i, j, k
        ensures !Straddles(calls', es, i, j, k)
      {
        assert !Straddles(calls, es, i, j, k);
      }
      DisjointWindowsAreAtomic(calls', store', es, |es|);
      assert es[..|es|] == es;
    }
  }

  /**
   * A legal schedule refines the atomic map, whatever its requests edit and whatever the instances
   * hold, exactly when no request patches an instance inside another request's window on it. If
   * any order of atomic edits explains such a schedule every time, patch order does.
   */
  lemma SerializableIffDisjointWindows(calls: Calls, store: Store, es: seq<Event>)
    requires Legal(calls, store, es)
    ensures Serializable(calls, store, es) <==> !Overlapping(calls, es)
    ensures SerializableAsPatched(calls, store, es) <==> !Overlapping(calls, es)
  {
    if Overlapping(calls, es) {
      OverlapLosesAnUpdate(calls, store, es);
    } else {
      DisjointWindowsAreSerializable(calls, store, es);
    }
    if SerializableAsPatched(calls, store, es) {
      forall calls': Calls, store': Store | SameShape(calls, calls') && store'.Keys == store.Keys
        ensures exists order :: EndsLike(calls', store', es, order)
      {
        assert EndsLike(calls', store', es, Patched(es));
      }
    }
  }

  /**
   * Any two requests on one instance can overlap: both read, then both patch. The schedule is legal,
   * and the instance is left as if the first request had never been made.
   */
  lemma AnyTwoCanOverlap(calls: Calls, store: Store, a: nat, b: nat)
    requires a != b && a in calls && b in calls && calls[a].target == calls[b].target && calls[a].target in store
    ensures var es, t := [Read(a), Read(b), Patch(a), Patch(b)], calls[a].target;
            && Legal(calls, store, es) && Overlapping(calls, es)
            && At(calls, store, es, 4).store == store[t := calls[b].Edit().Apply(store[t])]
  {
    var es, t := [Read(a), Read(b), Patch(a), Patch(b)], calls[a].target;
    assert Straddles(calls, es, 1, 2, 3);
    var first := Step(calls, Init(store), es[0]);
    var second := Step(calls, first, es[1]);
    var third := Step(calls, second, es[2]);
    assert At(calls, store, es, 0) == Init(store) && At(calls, store, es, 1) == first;
    assert At(calls, store, es, 2) == second && At(calls, store, es, 3) == third;
    assert Enabled(calls, second, es[2]) && Enabled(calls, third, es[3]);
    assert At(calls, store, es, 4) == Step(calls, third, es[3]);
    forall n | 0 <= n < 4
      ensures Ready(calls, store, es, n)
    {
    }
  }
}
