/**
 * The attach and detach routes as a concurrent protocol. A request first reads an instance's
 * device map and edits its private copy, and later patches the whole copy back; any number of
 * requests may sit between the two steps. A patch replaces the device map of the instance.
 */
module DeviceProtocol {
  import opened Wrappers
  import opened Devices

  datatype Target = Target(project: string, instance: string)

  datatype Call = Call(target: Target, request: Request) {
    function Edit(): Devices.Edit {
      EditOf(request)
    }
  }

  type Calls = map<nat, Call>
  type Store = map<Target, DeviceMap>

  /** `flights` holds the edited copies of requests that have read and not yet ended. */
  datatype State = State(store: Store, flights: map<nat, DeviceMap>, started: set<nat>)

  datatype Event = Read(id: nat) | ReadFails(id: nat) | Patch(id: nat) | PatchFails(id: nat)

  function Init(store: Store): State {
    State(store, map[], {})
  }

  /** The copy a route patches back: the devices of the reply, or none, with the edit made. */
  function EditedCopy(edit: Edit, replied: Option<DeviceMap>): DeviceMap {
    edit.Apply(if replied.Some? then replied.value else map[])
  }

  predicate Enabled(calls: Calls, s: State, e: Event) {
    && e.id in calls
    && match e
       case Read(id) => id !in s.started && calls[id].target in s.store
       case ReadFails(id) => id !in s.started
       case Patch(id) => id in s.flights && calls[id].target in s.store
       case PatchFails(id) => id in s.flights
  }

  /** One atomic step; an event that is not enabled changes nothing. */
  function Step(calls: Calls, s: State, e: Event): State {
    if !Enabled(calls, s, e) then s else
    match e
    case Read(id) =>
      var copy := EditedCopy(calls[id].Edit(), Some(s.store[calls[id].target]));
      State(s.store, s.flights[id := copy], s.started + {id})
    case ReadFails(id) => s.(started := s.started + {id})
    case Patch(id) => State(s.store[calls[id].target := s.flights[id]], s.flights - {id}, s.started)
    case PatchFails(id) => s.(flights := s.flights - {id})
  }

  /** The state after the first `n` events of a run. */
  function At(calls: Calls, store: Store, es: seq<Event>, n: nat): State
    requires n <= |es|
  {
    if n == 0 then Init(store) else Step(calls, At(calls, store, es, n - 1), es[n - 1])
  }

  /** A lookup is explained by the initial map or by the edit of a request already issued. */
  ghost predicate Explained(calls: Calls, store: Store, s: State, t: Target, key: string, found: Option<Device>)
    requires t in store
  {
    || found == Lookup(store[t], key)
    || exists id :: Wrote(calls, s, id, t, key, found)
  }

  predicate Wrote(calls: Calls, s: State, id: nat, t: Target, key: string, found: Option<Device>) {
    id in s.started && id in calls && calls[id].target == t
    && calls[id].Edit().key == key && calls[id].Edit().Outcome() == found
  }

  ghost predicate AllExplained(calls: Calls, store: Store, s: State, t: Target, devices: DeviceMap)
    requires t in store
  {
    forall key :: Explained(calls, store, s, t, key, Lookup(devices, key))
  }

  /** The inductive invariant of every interleaving. */
  ghost predicate Sound(calls: Calls, store: Store, s: State) {
    && s.store.Keys == store.Keys
    && s.flights.Keys <= s.started <= calls.Keys
    && (forall t :: t in store ==> AllExplained(calls, store, s, t, s.store[t]))
    && (forall id :: id in s.flights ==>
                       calls[id].target in store && AllExplained(calls, store, s, calls[id].target, s.flights[id]))
  }

  lemma ExplainedLater(calls: Calls, store: Store, s: State, s': State, t: Target, devices: DeviceMap)
    requires t in store && s.started <= s'.started && AllExplained(calls, store, s, t, devices)
    ensures AllExplained(calls, store, s', t, devices)
  {
    forall key
      ensures Explained(calls, store, s', t, key, Lookup(devices, key))
    {
      assert Explained(calls, store, s, t, key, Lookup(devices, key));
      if Lookup(devices, key) != Lookup(store[t], key) {
        var id :| Wrote(calls, s, id, t, key, Lookup(devices, key));
        assert Wrote(calls, s', id, t, key, Lookup(devices, key));
      }
    }
  }

  lemma StepIsSound(calls: Calls, store: Store, s: State, e: Event)
    requires Sound(calls, store, s)
    ensures Sound(calls, store, Step(calls, s, e))
  {
    if Enabled(calls, s, e) {
      var s' := Step(calls, s, e);
      forall t | t in store
        ensures AllExplained(calls, store, s', t, s.store[t])
      {
        ExplainedLater(calls, store, s, s', t, s.store[t]);
      }
      forall id | id in s.flights
        ensures AllExplained(calls, store, s', calls[id].target, s.flights[id])
      {
        ExplainedLater(calls, store, s, s', calls[id].target, s.flights[id]);
      }
      if e.Read? {
        var t, copy := calls[e.id].target, s'.flights[e.id];
        forall key
          ensures Explained(calls, store, s', t, key, Lookup(copy, key))
        {
          ApplyLookup(calls[e.id].Edit(), s.store[t], key);
          assert Explained(calls, store, s', t, key, Lookup(s.store[t], key));
          if key == calls[e.id].Edit().key {
            assert Wrote(calls, s', e.id, t, key, Lookup(copy, key));
          }
        }
      }
    }
  }

  lemma {:induction false} RunIsSound(calls: Calls, store: Store, es: seq<Event>, n: nat)
    requires n <= |es|
    ensures Sound(calls, store, At(calls, store, es, n))
  {
    if n == 0 {
      forall t | t in store
        ensures AllExplained(calls, store, Init(store), t, store[t])
      {
        forall key
          ensures Explained(calls, store, Init(store), t, key, Lookup(store[t], key))
        {
        }
      }
    } else {
      RunIsSound(calls, store, es, n - 1);
      StepIsSound(calls, store, At(calls, store, es, n - 1), es[n - 1]);
    }
  }

  /**
   * No device appears from thin air: in every reachable state each entry of an instance, and of
   * a copy in flight, is the initial entry or the one built by an attach request already issued.
   */
  lemma NoThinAir(calls: Calls, store: Store, es: seq<Event>, n: nat, t: Target, key: string)
    requires n <= |es| && t in store
    ensures var s := At(calls, store, es, n);
            && t in s.store
            && (key in s.store[t] ==>
                  || (key in store[t] && store[t][key] == s.store[t][key])
                  || exists id :: IssuedAttach(calls, s, id, t, key, s.store[t][key]))
            && (forall f :: f in s.flights && f in calls && calls[f].target == t && key in s.flights[f] ==>
                              || (key in store[t] && store[t][key] == s.flights[f][key])
                              || exists id :: IssuedAttach(calls, s, id, t, key, s.flights[f][key]))
  {
    var s := At(calls, store, es, n);
    RunIsSound(calls, store, es, n);
    Attributed(calls, store, s, t, s.store[t], key);
    forall f | f in s.flights && calls[f].target == t
      ensures key in s.flights[f] ==>
                || (key in store[t] && store[t][key] == s.flights[f][key])
                || exists id :: IssuedAttach(calls, s, id, t, key, s.flights[f][key])
    {
      Attributed(calls, store, s, t, s.flights[f], key);
    }
  }

  /** Request `id` has been issued and attaches exactly `device` under `key` to instance `t`. */
  predicate IssuedAttach(calls: Calls, s: State, id: nat, t: Target, key: string, device: Device) {
    id in s.started && id in calls && calls[id].target == t && calls[id].Edit() == Put(key, device)
  }

  lemma Attributed(calls: Calls, store: Store, s: State, t: Target, devices: DeviceMap, key: string)
    requires t in store && AllExplained(calls, store, s, t, devices)
    ensures key in devices ==>
              || (key in store[t] && store[t][key] == devices[key])
              || exists id :: IssuedAttach(calls, s, id, t, key, devices[key])
  {
    assert Explained(calls, store, s, t, key, Lookup(devices, key));
    if key in devices && Lookup(devices, key) != Lookup(store[t], key) {
      var id :| Wrote(calls, s, id, t, key, Lookup(devices, key));
      assert IssuedAttach(calls, s, id, t, key, devices[key]);
    }
  }

  /** Some request already issued works on instance `t`, and on device `key` of it. */
  ghost predicate Targeted(calls: Calls, s: State, t: Target, key: string) {
    exists id :: id in s.started && id in calls && calls[id].target == t && calls[id].Edit().key == key
  }

  ghost predicate Named(calls: Calls, s: State, t: Target) {
    exists id :: id in s.started && id in calls && calls[id].target == t
  }

  /**
   * In every interleaving, stale copies and lost updates included, a device key that no issued
   * request names keeps its initial value, and an instance that none names is unchanged.
   */
  lemma UntargetedKeepsValue(calls: Calls, store: Store, es: seq<Event>, n: nat, t: Target)
    requires n <= |es| && t in store
    ensures var s := At(calls, store, es, n);
            && s.store.Keys == store.Keys
            && (forall key :: !Targeted(calls, s, t, key) ==> Lookup(s.store[t], key) == Lookup(store[t], key))
            && (!Named(calls, s, t) ==> s.store[t] == store[t])
  {
    var s := At(calls, store, es, n);
    RunIsSound(calls, store, es, n);
    forall key | !Targeted(calls, s, t, key)
      ensures Lookup(s.store[t], key) == Lookup(store[t], key)
    {
      assert Explained(calls, store, s, t, key, Lookup(s.store[t], key));
    }
    if !Named(calls, s, t) {
      SameLookups(s.store[t], store[t]);
    }
  }

  /**
   * A patch has the effect of the atomic edit exactly when, away from the key it edits, the
   * instance still holds what the request read: this is the condition under which no update is lost.
   */
  lemma PatchIsAtomic(calls: Calls, s: State, id: nat, seen: DeviceMap)
    requires Enabled(calls, s, Patch(id))
    requires s.flights[id] == calls[id].Edit().Apply(seen)
    ensures var now := s.store[calls[id].target];
            Step(calls, s, Patch(id)).store[calls[id].target] == calls[id].Edit().Apply(now)
            <==> forall key :: key != calls[id].Edit().key ==> Lookup(seen, key) == Lookup(now, key)
  {
    var e, now := calls[id].Edit(), s.store[calls[id].target];
    if e.Apply(seen) == e.Apply(now) {
      forall key | key != e.key
        ensures Lookup(seen, key) == Lookup(now, key)
      {
        ApplyLookup(e, seen, key);
        ApplyLookup(e, now, key);
      }
    }
    if forall key :: key != e.key ==> Lookup(seen, key) == Lookup(now, key) {
      forall key
        ensures Lookup(e.Apply(seen), key) == Lookup(e.Apply(now), key)
      {
        ApplyLookup(e, seen, key);
        ApplyLookup(e, now, key);
      }
      SameLookups(e.Apply(seen), e.Apply(now));
    }
  }
}
