/** The in-memory mock handler, and the proof that it agrees with the real one. */
module Mock {
  import opened Vocabulary
  import opened Protocol
  import opened Locking
  import opened Progress
  import opened Undisturbed

  datatype Reply = Reply(out: Outcome, called: bool)

  class MockCacheHandler {
    var store: map<Key, Value>
    var errors: set<Key>
    var forcedMisses: set<Key>
    var getCalls: seq<Key>
    var setCalls: seq<(Key, Value)>
    var deleteCalls: seq<Key>
    var getOrRefreshCalls: seq<Key>

    constructor ()
      ensures store == map[] && errors == {} && forcedMisses == {}
      ensures getCalls == [] && setCalls == [] && deleteCalls == [] && getOrRefreshCalls == []
    {
      store, errors, forcedMisses := map[], {}, {};
      getCalls, setCalls, deleteCalls, getOrRefreshCalls := [], [], [], [];
    }

    method Seed(key: Key, value: Value)
      modifies this`store
      ensures store == old(store)[key := value]
    {
      store := store[key := value];
    }

    method InjectError(key: Key)
      modifies this`errors
      ensures errors == old(errors) + {key}
    {
      errors := errors + {key};
    }

    method ForceMiss(keys: set<Key>)
      modifies this`forcedMisses
      ensures forcedMisses == old(forcedMisses) + keys
    {
      forcedMisses := forcedMisses + keys;
    }

    method Reset()
      modifies this
      ensures store == map[] && errors == {} && forcedMisses == {}
      ensures getCalls == [] && setCalls == [] && deleteCalls == [] && getOrRefreshCalls == []
    {
      store, errors, forcedMisses := map[], {}, {};
      getCalls, setCalls, deleteCalls, getOrRefreshCalls := [], [], [], [];
    }

    method Get(key: Key) returns (v: Option<Value>)
      modifies this`getCalls
      ensures getCalls == old(getCalls) + [key]
      ensures v == if key in store && key !in forcedMisses then Some(store[key]) else None
    {
      getCalls := getCalls + [key];
      if key in forcedMisses || key !in store {
        return None;
      }
      v := Some(store[key]);
    }

    method Set(key: Key, value: Value)
      modifies this`store, this`setCalls
      ensures store == MockStep(old(store), Assigns(key, value, 1)).0
      ensures setCalls == old(setCalls) + [(key, value)]
    {
      setCalls := setCalls + [(key, value)];
      store := store[key := value];
    }

    method Delete(key: Key)
      modifies this`store, this`deleteCalls
      ensures store == MockStep(old(store), Deletes(key)).0
      ensures deleteCalls == old(deleteCalls) + [key]
    {
      deleteCalls := deleteCalls + [key];
      store := store - {key};
    }

    /** get_or_refresh; `gen` is None when no generator is passed, and then a miss raises. */
    method GetOrRefresh(key: Key, gen: Option<Oracle>) returns (reply: Reply)
      modifies this`store, this`getOrRefreshCalls
      ensures getOrRefreshCalls == old(getOrRefreshCalls) + [key]
      ensures key in errors ==> reply == Reply(Failed, false) && store == old(store)
      ensures key !in errors && gen.None? && (key in forcedMisses || key !in old(store)) ==>
                reply == Reply(Missed, false) && store == old(store)
      ensures key !in errors && key !in forcedMisses && gen.Some? ==>
                forall r: Request :: (store, reply) == MockStep(old(store), Refreshes(key, r, gen.value))
      ensures key !in errors && key in forcedMisses && gen.Some? ==>
                reply.called && (if gen.value.gen.Some?
                                 then reply.out == Filled(gen.value.gen.value)
                                      && store == old(store)[key := gen.value.gen.value]
                                 else reply.out == Failed && store == old(store))
    {
      getOrRefreshCalls := getOrRefreshCalls + [key];
      if key in errors {
        return Reply(Failed, false);
      }
      if key in forcedMisses || key !in store {
        if gen.None? {
          return Reply(Missed, false);
        }
        if gen.value.gen.None? {
          return Reply(Failed, true);
        }
        store := store[key := gen.value.gen.value];
        return Reply(Filled(gen.value.gen.value), true);
      }
      reply := Reply(Cached(store[key]), false);
    }
  }

  // ---------------------------------------------------------------------------------------------
  // The two handlers as functions on operations
  // ---------------------------------------------------------------------------------------------

  datatype Op =
    | Reads(key: Key)
    | Assigns(key: Key, value: Value, ttl: int)
    | Deletes(key: Key)
    | Refreshes(key: Key, req: Request, oracle: Oracle)

  function MockStep(m: map<Key, Value>, op: Op): (map<Key, Value>, Reply) {
    match op
    case Reads(k) => (m, Reply(if k in m then Cached(m[k]) else Missed, false))
    case Assigns(k, v, _) => (m[k := v], Reply(Quiet, false))
    case Deletes(k) => (m - {k}, Reply(Quiet, false))
    case Refreshes(k, _, o) =>
      if k in m then (m, Reply(Cached(m[k]), false))
      else if o.gen.Some? then (m[k := o.gen.value], Reply(Filled(o.gen.value), true))
      else (m, Reply(Failed, true))
  }

  /** Whether an undisturbed job starts its generator. */
  function SoloCalls(c: Config, job: Job, pc: PC, slot: Slot, now: Time, o: Oracle): bool
    requires Shape(c, job, pc)
    decreases Weight(Thread("", job, pc, 0))
  {
    var v := ViewAlone(slot, now);
    var ch := ChoiceOf(c, o, job, pc, v);
    if !Can(c, pc, v, ch) then false
    else
      LocalShape(c, job, pc, v, ch);
      LocalWeight(c, Thread("", job, pc, 0), v, ch, 0);
      var (pc', cmd) := Local(c, job, pc, v, ch);
      pc.GenReady? || pc.FreeReady? || SoloCalls(c, job, pc', Effect(slot, now, 0, cmd), now, o)
  }

  /** No generator is asked, no trigger drawn, and no command fails. */
  const UP := Oracle(None, false, {})

  /** A real handler used by one caller at a time: clock and slots. */
  datatype Real = Real(now: Time, slots: map<Key, Slot>)

  function SlotAt(s: Real, k: Key): Slot {
    if k in s.slots then s.slots[k] else EMPTY_SLOT
  }

  /** What the caller gets; `Quiet` stands for nothing, also while the job waits for a lock. */
  function Returned(alone: Alone): Outcome {
    if alone.out.Some? then alone.out.value else Quiet
  }

  predicate Sensible(c: Config, op: Op) {
    match op
    case Assigns(_, _, ttl) => ttl > 0
    case Refreshes(_, r, o) =>
      r.ttl > 0 && r.miss.Sync? && r.hit.NoHit? && r.err.Surface? && r.gen.Some? && o.down == {}
    case _ => true
  }

  function RealStep(c: Config, s: Real, op: Op): (Real, Reply)
    requires c.lang.Python?
  {
    match op
    case Reads(k) =>
      var seen := Read(SlotAt(s, k).main, s.now);
      (s, Reply(if seen.Some? then Cached(seen.value) else Missed, false))
    case Assigns(k, v, ttl) =>
      var alone := Solo(c, k, Assign(v, ttl), Put(v), SlotAt(s, k), s.now, UP, []);
      (s.(slots := s.slots[k := alone.slot]), Reply(Returned(alone), false))
    case Deletes(k) =>
      var alone := Solo(c, k, Remove, Drop, SlotAt(s, k), s.now, UP, []);
      (s.(slots := s.slots[k := alone.slot]), Reply(Returned(alone), false))
    case Refreshes(k, r, o) =>
      var alone := Solo(c, k, Call(r), Look, SlotAt(s, k), s.now, o, []);
      (s.(slots := s.slots[k := alone.slot]),
       Reply(Returned(alone), SoloCalls(c, Call(r), Look, SlotAt(s, k), s.now, o)))
  }

  // ---------------------------------------------------------------------------------------------
  // What a SYNC call means
  // ---------------------------------------------------------------------------------------------

  /** The slot and the reply of an undisturbed SYNC + NONE + SURFACE call. */
  lemma SyncMeaning(c: Config, k: Key, r: Request, slot: Slot, now: Time, o: Oracle)
    requires c.lang.Python? && Sensible(c, Refreshes(k, r, o)) && slot.holder.None?
    ensures var seen := Read(slot.main, now);
            Solo(c, k, Call(r), Look, slot, now, o, [])
              == if seen.Some? then Alone(slot, Some(Cached(seen.value)), [])
                 else if o.gen.None? then Alone(slot, Some(Failed), [])
                 else Alone(WithSet(c, slot, o.gen.value, r.ttl, now, o), Some(Filled(o.gen.value)), [])
  {
    hide Solo;
    var job, seen := Call(r), Read(slot.main, now);
    LookChain(c, k, r, slot, now, o, []);
    if seen.Some? {
      SyncHit(c, k, r, seen.value, slot, now, o);
    } else {
      DedupChain(c, k, r, slot, now, o, []);
      SoloStep(c, k, job, Dispatch, slot, now, o, []);
      LockedChain(c, k, r, LockWait, slot, now, o, []);
      SyncMiss(c, k, r, slot, now, o);
    }
  }

  lemma SyncHit(c: Config, k: Key, r: Request, x: Value, slot: Slot, now: Time, o: Oracle)
    requires c.lang.Python? && r.hit.NoHit?
    ensures Solo(c, k, Call(r), Trigger(x), slot, now, o, []) == Alone(slot, Some(Cached(x)), [])
    ensures Solo(c, k, Call(r), Done(Cached(x)), slot, now, o, []) == Alone(slot, Some(Cached(x)), [])
  {
    hide Solo;
    SoloDone(c, k, Call(r), Cached(x), slot, now, o, []);
    SoloStep(c, k, Call(r), Trigger(x), slot, now, o, []);
  }

  lemma SyncMiss(c: Config, k: Key, r: Request, slot: Slot, now: Time, o: Oracle)
    requires c.lang.Python? && Sensible(c, Refreshes(k, r, o)) && slot.holder.None?
    ensures var held := slot.(holder := Some(0));
            if o.gen.None?
            then Solo(c, k, Call(r), Unlock(Failed), held, now, o, []) == Alone(slot, Some(Failed), [])
            else Solo(c, k, Call(r), Put(o.gen.value), held, now, o, [])
                   == Alone(WithSet(c, slot, o.gen.value, r.ttl, now, o), Some(Filled(o.gen.value)), [])
  {
    hide Solo;
    var held := slot.(holder := Some(0));
    if o.gen.None? {
      ReleaseChain(c, k, r, Failed, held, now, o, []);
      FinishChain(c, k, r, Failed, slot, now, o, []);
    } else {
      var x := o.gen.value;
      SetChain(c, k, Call(r), held, x, now, o, []);
      ReleaseChain(c, k, r, Filled(x), WithSet(c, held, x, r.ttl, now, o), now, o, []);
      FinishChain(c, k, r, Filled(x), WithSet(c, slot, x, r.ttl, now, o), now, o, []);
    }
  }

  /** An undisturbed SYNC call starts the generator exactly on a miss. */
  lemma SyncCalls(c: Config, r: Request, slot: Slot, now: Time, o: Oracle)
    requires c.lang.Python? && r.miss.Sync? && r.hit.NoHit? && r.gen.Some? && slot.holder.None? && o.down == {}
    ensures SoloCalls(c, Call(r), Look, slot, now, o) <==> Read(slot.main, now).None?
  {
    hide SoloCalls;
    var job := Call(r);
    CallsStep(c, job, Look, slot, now, o);
    if Read(slot.main, now).Some? {
      var x := Read(slot.main, now).value;
      if !r.noRefresh { CallsStep(c, job, Trigger(x), slot, now, o); }
      CallsDone(c, job, Cached(x), slot, now, o);
    } else {
      CallsStep(c, job, Dedup, slot, now, o);
      if WroteRecently(c, r.ttl, ViewAlone(slot, now)) { CallsStep(c, job, Reread, slot, now, o); }
      SyncGenerates(c, r, slot, now, o);
    }
  }

  lemma SyncGenerates(c: Config, r: Request, slot: Slot, now: Time, o: Oracle)
    requires c.lang.Python? && r.miss.Sync? && r.gen.Some? && slot.holder.None? && Read(slot.main, now).None?
    requires o.down == {}
    ensures SoloCalls(c, Call(r), Dispatch, slot, now, o)
  {
    hide SoloCalls;
    var job, held := Call(r), slot.(holder := Some(0));
    CallsStep(c, job, Dispatch, slot, now, o);
    CallsStep(c, job, LockWait, slot, now, o);
    CallsStep(c, job, Check, held, now, o);
    CallsStep(c, job, GenReady, held, now, o);
  }

  lemma CallsStep(c: Config, job: Job, pc: PC, slot: Slot, now: Time, o: Oracle)
    requires Shape(c, job, pc) && CanAlone(c, job, pc, slot, now, o)
    ensures var (pc', cmd) := SoloAct(c, job, pc, slot, now, o);
            Shape(c, job, pc') &&
            SoloCalls(c, job, pc, slot, now, o)
              == (pc.GenReady? || pc.FreeReady? || SoloCalls(c, job, pc', Effect(slot, now, 0, cmd), now, o))
  {
    LocalShape(c, job, pc, ViewAlone(slot, now), ChoiceOf(c, o, job, pc, ViewAlone(slot, now)));
  }

  lemma CallsDone(c: Config, job: Job, out: Outcome, slot: Slot, now: Time, o: Oracle)
    requires Shape(c, job, Done(out))
    ensures !SoloCalls(c, job, Done(out), slot, now, o)
  {
  }

  lemma AssignMeaning(c: Config, k: Key, x: Value, ttl: int, slot: Slot, now: Time, o: Oracle)
    requires c.lang.Python? && ttl > 0 && o.down == {}
    ensures Solo(c, k, Assign(x, ttl), Put(x), slot, now, o, [])
              == Alone(WithSet(c, slot, x, ttl, now, o), Some(Quiet), [])
  {
    hide Solo;
    SetChain(c, k, Assign(x, ttl), slot, x, now, o, []);
    SoloDone(c, k, Assign(x, ttl), Quiet, WithSet(c, slot, x, ttl, now, o), now, o, []);
  }

  lemma RemoveMeaning(c: Config, k: Key, slot: Slot, now: Time, o: Oracle)
    requires c.lang.Python? && o.down == {}
    ensures Solo(c, k, Remove, Drop, slot, now, o, []) == Alone(slot.(main := None, shadow := None), Some(Quiet), [])
  {
    hide Solo;
    SoloStep(c, k, Remove, Drop, slot, now, o, []);
    SoloDone(c, k, Remove, Quiet, slot.(main := None, shadow := None), now, o, []);
  }

  // ---------------------------------------------------------------------------------------------
  // Simulation
  // ---------------------------------------------------------------------------------------------

  /** The mock's dictionary is what the real handler would read, and nothing is locked. */
  ghost predicate Agree(m: map<Key, Value>, s: Real) {
    forall k: Key :: SameAt(m, s, k)
  }

  predicate SameAt(m: map<Key, Value>, s: Real, k: Key) {
    SlotAt(s, k).holder.None? &&
    Read(SlotAt(s, k).main, s.now) == if k in m then Some(m[k]) else None
  }

  lemma StepAgrees(c: Config, m: map<Key, Value>, s: Real, op: Op)
    requires c.lang.Python? && Sensible(c, op) && Agree(m, s)
    ensures RealStep(c, s, op).1 == MockStep(m, op).1
    ensures Agree(MockStep(m, op).0, RealStep(c, s, op).0)
  {
    hide Solo;
    hide SoloCalls;
    assert SameAt(m, s, op.key);
    match op {
      case Reads(k) =>
      case Assigns(k, x, ttl) => AssignMeaning(c, k, x, ttl, SlotAt(s, k), s.now, UP);
      case Deletes(k) => RemoveMeaning(c, k, SlotAt(s, k), s.now, UP);
      case Refreshes(k, r, o) =>
        SyncMeaning(c, k, r, SlotAt(s, k), s.now, o);
        SyncCalls(c, r, SlotAt(s, k), s.now, o);
    }
    var m', s' := MockStep(m, op).0, RealStep(c, s, op).0;
    forall k: Key ensures SameAt(m', s', k) {
      assert SameAt(m, s, k);
    }
  }

  /** Operations with the time that passes before each. */
  datatype Timed = Timed(ticks: nat, op: Op)

  function Later(s: Real, d: nat): Real {
    s.(now := s.now + d)
  }

  /** Nothing that was there expires in between. */
  ghost predicate NothingExpires(s: Real, d: nat) {
    forall k: Key :: Alive(SlotAt(s, k).main, s.now) ==> Alive(SlotAt(s, k).main, s.now + d)
  }

  ghost predicate Comparable(c: Config, s: Real, ops: seq<Timed>)
    requires c.lang.Python?
    decreases |ops|
  {
    ops == [] ||
    (Sensible(c, ops[0].op) && NothingExpires(s, ops[0].ticks)
     && Comparable(c, RealStep(c, Later(s, ops[0].ticks), ops[0].op).0, ops[1..]))
  }

  function MockReplies(m: map<Key, Value>, ops: seq<Timed>): seq<Reply>
    decreases |ops|
  {
    if ops == [] then [] else
    var (m', reply) := MockStep(m, ops[0].op); [reply] + MockReplies(m', ops[1..])
  }

  function RealReplies(c: Config, s: Real, ops: seq<Timed>): seq<Reply>
    requires c.lang.Python?
    decreases |ops|
  {
    if ops == [] then [] else
    var (s', reply) := RealStep(c, Later(s, ops[0].ticks), ops[0].op); [reply] + RealReplies(c, s', ops[1..])
  }

  /** Mock simulation.  For every sequence of get, set, delete and get_or_refresh with a generator, under
      SYNC + NONE + SURFACE and without expiry, the mock gives the same values, the same from_cache flags,
      the same failures and the same generator calls as the real handler. */
  lemma {:induction false} MockSimulates(c: Config, m: map<Key, Value>, s: Real, ops: seq<Timed>)
    requires c.lang.Python? && Agree(m, s) && Comparable(c, s, ops)
    ensures MockReplies(m, ops) == RealReplies(c, s, ops)
    decreases |ops|
  {
    if ops != [] {
      var later := Later(s, ops[0].ticks);
      forall k: Key ensures SameAt(m, later, k) {
        assert SameAt(m, s, k);
      }
      StepAgrees(c, m, later, ops[0].op);
      MockSimulates(c, MockStep(m, ops[0].op).0, RealStep(c, later, ops[0].op).0, ops[1..]);
    }
  }
}
