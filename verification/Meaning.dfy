/** What an undisturbed job means, said in terms of entries, clock readings, options and answers alone.  None
    of the step machine's own tests and helpers (cooldown, window, triggers, error policy, lifetimes) is used
    to say it. */
module Meaning {
  import opened Vocabulary
  import opened Protocol
  import opened Locking
  import opened Undisturbed

  // ---------------------------------------------------------------------------------------------
  // The words
  // ---------------------------------------------------------------------------------------------

  /** e holds x at this moment. */
  predicate HasValue(e: Option<Entry>, x: Value, now: Time) {
    e.Some? && e.value.value == x && (e.value.life.Some? ==> now < e.value.life.value)
  }

  /** e holds nothing at this moment. */
  predicate Gone(e: Option<Entry>, now: Time) {
    e.Some? ==> e.value.life.Some? && e.value.life.value <= now
  }

  function Stored(x: Value, now: Time, ttl: int): Option<Entry> {
    Some(Entry(x, if ttl > 0 then Some(now + ttl) else None))
  }

  /** What the caller is told of a failure. */
  function Complaint(r: Request): Outcome {
    if r.err.ZeroValue? then Zero else Failed
  }

  /** No cooldown is configured, nothing was written, or the last write lies the cooldown back. */
  predicate Due(c: Config, slot: Slot, now: Time) {
    c.cooldown > 0 && slot.last.Some? ==> now - slot.last.value >= c.cooldown
  }

  /** This handler wrote the key within the window and within the call's ttl. */
  predicate JustWritten(c: Config, r: Request, slot: Slot, now: Time) {
    c.dedup > 0 && slot.last.Some? && now - slot.last.value < c.dedup && now - slot.last.value < r.ttl
  }

  /** The remaining lifetime of a main entry that expires. */
  predicate Remains(slot: Slot, now: Time, n: int) {
    n > 0 && slot.main.Some? && slot.main.value.life.Some? && slot.main.value.life.value == now + n
  }

  /** The trigger of the hit policy. */
  ghost predicate Triggers(c: Config, r: Request, slot: Slot, now: Time, o: Oracle) {
    match r.hit
    case NoHit => false
    case OnHit => true
    case Ahead(f) =>
      exists n :: Remains(slot, now, n) && r.ttl != 0 &&
                  if c.lang.Go? then n as real / r.ttl as real <= f else n as real / r.ttl as real < f
    case OlderThan(a) =>
      exists n :: Remains(slot, now, n) &&
                  if c.lang.Go? then a > 0.0 && (r.ttl - n) as real >= a else (r.ttl - n) as real > a
    case Probabilistic =>
      o.draw && if c.lang.Go? then slot.created.Some? else exists n :: Remains(slot, now, n)
  }

  /** The hit policy sends a TTL command. */
  predicate Asks(c: Config, r: Request) {
    r.hit.Ahead? || r.hit.OlderThan? || (r.hit.Probabilistic? && c.lang.Python?)
  }

  ghost predicate Launches(c: Config, r: Request, slot: Slot, now: Time, o: Oracle) {
    && !r.noRefresh
    && !(Asks(c, r) && AskTtl in o.down)
    && Triggers(c, r, slot, now, o)
    && (c.lang.Python? ==> r.gen.Some?)
    && (c.lang.Python? || r.hit.OnHit? ==> Due(c, slot, now))
  }

  /** In Python a hit raises when its TTL command fails, and AHEAD when it divides by a zero ttl. */
  ghost predicate Raises(c: Config, r: Request, slot: Slot, now: Time, o: Oracle) {
    && c.lang.Python? && !r.noRefresh && r.gen.Some?
    && ((Asks(c, r) && AskTtl in o.down) || (r.hit.Ahead? && r.ttl == 0 && exists n :: Remains(slot, now, n)))
  }

  // ---------------------------------------------------------------------------------------------
  // Hits
  // ---------------------------------------------------------------------------------------------

  lemma RemainsIs(slot: Slot, now: Time, x: Value)
    requires HasValue(slot.main, x, now)
    ensures var n := ViewAlone(slot, now).remaining;
            (n > 0 ==> Remains(slot, now, n)) && forall m :: Remains(slot, now, m) ==> m == n
  {
  }

  lemma TriggersIs(c: Config, r: Request, slot: Slot, now: Time, x: Value, o: Oracle)
    requires HasValue(slot.main, x, now)
    ensures var v := ViewAlone(slot, now);
            && (Triggers(c, r, slot, now, o) <==> Fires(c, r, v, if o.draw then Ok else Skip))
            && (AheadRaises(c.lang, r, v.remaining) <==>
                  c.lang.Python? && r.hit.Ahead? && r.ttl == 0 && exists n :: Remains(slot, now, n))
  {
    RemainsIs(slot, now, x);
  }

  /** A hit answers the value, and launches a background refresh or raises exactly as said. */
  lemma HitMeans(c: Config, key: Key, r: Request, x: Value, slot: Slot, now: Time, o: Oracle, tasks: seq<Task>)
    requires (c.lang.Go? ==> r.gen.Some?) && FirstGet !in o.down && HasValue(slot.main, x, now)
    ensures Solo(c, key, Call(r), Look, slot, now, o, tasks)
              == Alone(slot, Some(if Raises(c, r, slot, now, o) then Complaint(r) else Cached(x)),
                       tasks + if Launches(c, r, slot, now, o) then [Task(key, Refresh(r.ttl, r.gen))] else [])
  {
    hide Solo;
    assert tasks + [] == tasks;
    LookChain(c, key, r, slot, now, o, tasks);
    if r.noRefresh {
      SoloDone(c, key, Call(r), Cached(x), slot, now, o, tasks);
    } else {
      HitChain(c, key, r, x, slot, now, o, tasks);
      LaunchIs(c, r, slot, now, x, o);
      var out := if Raises(c, r, slot, now, o) then Complaint(r) else Cached(x);
      var tasks' := if Launches(c, r, slot, now, o) then tasks + [Task(key, Refresh(r.ttl, r.gen))] else tasks;
      SoloDone(c, key, Call(r), out, slot, now, o, tasks');
    }
  }

  lemma LaunchIs(c: Config, r: Request, slot: Slot, now: Time, x: Value, o: Oracle)
    requires HasValue(slot.main, x, now) && !r.noRefresh
    ensures Launches(c, r, slot, now, o) <==> HitLaunches(c, r, ViewAlone(slot, now), o)
    ensures Raises(c, r, slot, now, o) <==> HitRaises(c, r, ViewAlone(slot, now), o)
  {
    TriggersIs(c, r, slot, now, x, o);
    hide Triggers;
    hide Fires;
  }

  // ---------------------------------------------------------------------------------------------
  // Misses
  // ---------------------------------------------------------------------------------------------

  /** A failing first GET: Go reports it whatever the error policy, Python leaves it to the policy. */
  lemma FirstGetFails(c: Config, key: Key, r: Request, slot: Slot, now: Time, o: Oracle, tasks: seq<Task>)
    requires (c.lang.Go? ==> r.gen.Some?) && FirstGet in o.down
    ensures Solo(c, key, Call(r), Look, slot, now, o, tasks)
              == Alone(slot, Some(if c.lang.Go? then Failed else Complaint(r)), tasks)
  {
    hide Solo;
    LookChain(c, key, r, slot, now, o, tasks);
    SoloDone(c, key, Call(r), if c.lang.Go? then Failed else Complaint(r), slot, now, o, tasks);
  }

  /** The second look is taken exactly after a recent write; in Python its failure ends the call. */
  lemma SecondGetFails(c: Config, key: Key, r: Request, slot: Slot, now: Time, o: Oracle, tasks: seq<Task>)
    requires c.lang.Python? && FirstGet !in o.down && Gone(slot.main, now)
    requires JustWritten(c, r, slot, now) && SecondGet in o.down
    ensures Solo(c, key, Call(r), Look, slot, now, o, tasks) == Alone(slot, Some(Complaint(r)), tasks)
  {
    hide Solo;
    LookChain(c, key, r, slot, now, o, tasks);
    DedupChain(c, key, r, slot, now, o, tasks);
    SoloDone(c, key, Call(r), Complaint(r), slot, now, o, tasks);
  }

  /** The call misses and gets to its fill policy. */
  predicate Misses(c: Config, r: Request, slot: Slot, now: Time, o: Oracle) {
    && (c.lang.Go? ==> r.gen.Some?)
    && FirstGet !in o.down && Gone(slot.main, now)
    && !(c.lang.Python? && JustWritten(c, r, slot, now) && SecondGet in o.down)
  }

  lemma ToFill(c: Config, key: Key, r: Request, slot: Slot, now: Time, o: Oracle, tasks: seq<Task>)
    requires Misses(c, r, slot, now, o)
    ensures Shape(c, Call(r), Dispatch)
    ensures Solo(c, key, Call(r), Look, slot, now, o, tasks) == Solo(c, key, Call(r), Dispatch, slot, now, o, tasks)
  {
    hide Solo;
    LookChain(c, key, r, slot, now, o, tasks);
    DedupChain(c, key, r, slot, now, o, tasks);
  }

  /** FAIL_FAST gives the miss signal, under either error policy, and does nothing. */
  lemma FailFastMeans(c: Config, key: Key, r: Request, slot: Slot, now: Time, o: Oracle, tasks: seq<Task>)
    requires Misses(c, r, slot, now, o) && r.miss.FailFast?
    ensures Solo(c, key, Call(r), Look, slot, now, o, tasks) == Alone(slot, Some(Missed), tasks)
  {
    hide Solo;
    ToFill(c, key, r, slot, now, o, tasks);
    SoloStep(c, key, Call(r), Dispatch, slot, now, o, tasks);
    SoloDone(c, key, Call(r), Missed, slot, now, o, tasks);
  }

  /** Every other policy needs a generator, which only a Python caller can leave out. */
  lemma NoGeneratorMeans(c: Config, key: Key, r: Request, slot: Slot, now: Time, o: Oracle, tasks: seq<Task>)
    requires Misses(c, r, slot, now, o) && !r.miss.FailFast? && r.gen.None?
    ensures Solo(c, key, Call(r), Look, slot, now, o, tasks) == Alone(slot, Some(Complaint(r)), tasks)
  {
    hide Solo;
    ToFill(c, key, r, slot, now, o, tasks);
    SoloStep(c, key, Call(r), Dispatch, slot, now, o, tasks);
    SoloDone(c, key, Call(r), Complaint(r), slot, now, o, tasks);
  }

  // ---------------------------------------------------------------------------------------------
  // Writing
  // ---------------------------------------------------------------------------------------------

  /** The main key takes the value: the command reaches Redis, and Redis accepts the lifetime, which only
      the Python client sends when it is not positive. */
  predicate Lands(c: Config, ttl: int, o: Oracle) {
    SetKey !in o.down && (c.lang.Python? ==> ttl > 0)
  }

  /** Python's shadow takes the value, where there is one. */
  predicate ShadowLands(c: Config, o: Oracle) {
    c.lang.Python? && c.staleTtl > 0 ==> SetStaleKey !in o.down
  }

  /** The slot after a `Set` or `set` of x, and how the write times go: recorded if anybody consults them. */
  function Written(c: Config, slot: Slot, x: Value, ttl: int, now: Time, o: Oracle): Slot {
    if !Lands(c, ttl, o) then slot
    else if !ShadowLands(c, o) then slot.(main := Stored(x, now, ttl))
    else slot.(
      main := Stored(x, now, ttl),
      shadow := if c.lang.Python? && c.staleTtl > 0 then Stored(x, now, ttl + c.staleTtl) else slot.shadow,
      last := if c.cooldown > 0 || c.dedup > 0 then Some(now) else slot.last)
  }

  lemma WrittenIs(c: Config, slot: Slot, x: Value, ttl: int, now: Time, o: Oracle)
    ensures Written(c, slot, x, ttl, now, o) == WithSet(c, slot, x, ttl, now, o)
    ensures Lands(c, ttl, o) && ShadowLands(c, o) <==> SetSucceeds(c, ttl, o)
  {
  }

  /** The stamp a successful miss leaves under PROBABILISTIC. */
  function Stamped(c: Config, r: Request, slot: Slot, now: Time): Slot {
    if !r.hit.Probabilistic? then slot
    else if c.lang.Go? then slot.(created := Some(now))
    else if c.cooldown > 0 || c.dedup > 0 then slot.(last := Some(now)) else slot
  }

  /** The end of a miss. */
  lemma Ends(c: Config, key: Key, r: Request, out: Outcome, slot: Slot, now: Time, o: Oracle, tasks: seq<Task>)
    requires Shape(c, Call(r), Finish(r, out)) && !out.Zero? && !out.Missed? && !out.Quiet?
    ensures Solo(c, key, Call(r), Finish(r, out), slot, now, o, tasks)
              == if out.Failed? then Alone(slot, Some(Complaint(r)), tasks)
                 else Alone(Stamped(c, r, slot, now), Some(out), tasks)
  {
    hide Solo;
    FinishChain(c, key, r, out, slot, now, o, tasks);
  }

  /** What the fill under the lock comes to when the lock is free. */
  function LockedFill(c: Config, r: Request, slot: Slot, now: Time, o: Oracle, tasks: seq<Task>): Alone {
    if LockedGet in o.down || o.gen.None? then Alone(slot, Some(Complaint(r)), tasks)
    else if Lands(c, r.ttl, o) && ShadowLands(c, o) then
      Alone(Stamped(c, r, Written(c, slot, o.gen.value, r.ttl, now, o), now), Some(Filled(o.gen.value)), tasks)
    else Alone(Written(c, slot, o.gen.value, r.ttl, now, o), Some(Complaint(r)), tasks)
  }

  lemma Fills(c: Config, key: Key, r: Request, pc: PC, slot: Slot, now: Time, o: Oracle, tasks: seq<Task>)
    requires (pc.LockWait? || pc.CoopWait?) && Shape(c, Call(r), pc) && slot.holder.None? && Gone(slot.main, now)
    ensures Solo(c, key, Call(r), pc, slot, now, o, tasks) == LockedFill(c, r, slot, now, o, tasks)
  {
    hide Solo;
    var held := slot.(holder := Some(0));
    LockedChain(c, key, r, pc, slot, now, o, tasks);
    if LockedGet in o.down || o.gen.None? {
      ReleaseChain(c, key, r, Failed, held, now, o, tasks);
      Ends(c, key, r, Failed, slot, now, o, tasks);
    } else {
      FillsWith(c, key, r, o.gen.value, slot, now, o, tasks);
    }
  }

  lemma FillsWith(c: Config, key: Key, r: Request, x: Value, slot: Slot, now: Time, o: Oracle, tasks: seq<Task>)
    requires Shape(c, Call(r), Put(x)) && slot.holder.None? && LockedGet !in o.down && o.gen == Some(x)
    ensures Solo(c, key, Call(r), Put(x), slot.(holder := Some(0)), now, o, tasks)
              == LockedFill(c, r, slot, now, o, tasks)
  {
    hide Solo;
    hide Shape;
    var held, ok := slot.(holder := Some(0)), SetSucceeds(c, r.ttl, o);
    var out := if ok then Filled(x) else Failed;
    SetChain(c, key, Call(r), held, x, now, o, tasks);
    ReleaseChain(c, key, r, out, WithSet(c, held, x, r.ttl, now, o), now, o, tasks);
    WrittenIs(c, slot, x, r.ttl, now, o);
    WrittenIs(c, held, x, r.ttl, now, o);
    assert WithSet(c, held, x, r.ttl, now, o).(holder := None) == WithSet(c, slot, x, r.ttl, now, o);
    Ends(c, key, r, out, WithSet(c, slot, x, r.ttl, now, o), now, o, tasks);
  }

  /** SYNC fills under the lock, or waits for it. */
  lemma SyncMeans(c: Config, key: Key, r: Request, slot: Slot, now: Time, o: Oracle, tasks: seq<Task>)
    requires Misses(c, r, slot, now, o) && r.miss.Sync? && r.gen.Some?
    ensures Solo(c, key, Call(r), Look, slot, now, o, tasks)
              == if slot.holder.Some? then Alone(slot, None, tasks) else LockedFill(c, r, slot, now, o, tasks)
  {
    hide Solo;
    ToFill(c, key, r, slot, now, o, tasks);
    SoloStep(c, key, Call(r), Dispatch, slot, now, o, tasks);
    FillsOrWaits(c, key, r, slot, now, o, tasks);
  }

  lemma FillsOrWaits(c: Config, key: Key, r: Request, slot: Slot, now: Time, o: Oracle, tasks: seq<Task>)
    requires Shape(c, Call(r), LockWait) && Gone(slot.main, now)
    ensures Solo(c, key, Call(r), LockWait, slot, now, o, tasks)
              == if slot.holder.Some? then Alone(slot, None, tasks) else LockedFill(c, r, slot, now, o, tasks)
  {
    hide Solo;
    if slot.holder.Some? {
      SoloBlocked(c, key, Call(r), slot, now, o, tasks);
    } else {
      Fills(c, key, r, LockWait, slot, now, o, tasks);
    }
  }

  /** The fill without the lock: a value that is generated and stored nowhere. */
  function FreeFill(c: Config, r: Request, slot: Slot, now: Time, o: Oracle, tasks: seq<Task>): Alone {
    if o.gen.None? then Alone(slot, Some(Complaint(r)), tasks)
    else Alone(Stamped(c, r, slot, now), Some(Generated(o.gen.value)), tasks)
  }

  /** ASYNC generates without the lock and queues the write, for the call's ttl. */
  lemma AsyncMeans(c: Config, key: Key, r: Request, slot: Slot, now: Time, o: Oracle, tasks: seq<Task>)
    requires Misses(c, r, slot, now, o) && r.miss.Async? && r.gen.Some?
    ensures Solo(c, key, Call(r), Look, slot, now, o, tasks)
              == FreeFill(c, r, slot, now, o,
                          tasks + if o.gen.Some? then [Task(key, WriteBack(o.gen.value, r.ttl))] else [])
  {
    hide Solo;
    assert tasks + [] == tasks;
    ToFill(c, key, r, slot, now, o, tasks);
    SoloStep(c, key, Call(r), Dispatch, slot, now, o, tasks);
    FreeMeans(c, key, r, slot, now, o, tasks);
  }

  lemma FreeMeans(c: Config, key: Key, r: Request, slot: Slot, now: Time, o: Oracle, tasks: seq<Task>)
    requires Shape(c, Call(r), FreeReady)
    ensures Solo(c, key, Call(r), FreeReady, slot, now, o, tasks)
              == FreeFill(c, r, slot, now, o,
                          if o.gen.Some? && r.miss.Async? then tasks + [Task(key, WriteBack(o.gen.value, r.ttl))]
                          else tasks)
  {
    hide Solo;
    FreeChain(c, key, r, slot, now, o, tasks);
    var out := if o.gen.None? then Failed else Generated(o.gen.value);
    Ends(c, key, r, out, slot, now, o,
         if o.gen.Some? && r.miss.Async? then tasks + [Task(key, WriteBack(o.gen.value, r.ttl))] else tasks);
  }

  /** COOPERATIVE fills under a free lock; behind a taken one it generates without it, and in Go its helper
      stays behind. */
  lemma CooperativeMeans(c: Config, key: Key, r: Request, slot: Slot, now: Time, o: Oracle, tasks: seq<Task>)
    requires Misses(c, r, slot, now, o) && r.miss.Cooperative? && r.gen.Some?
    ensures Solo(c, key, Call(r), Look, slot, now, o, tasks)
              == if slot.holder.None? then LockedFill(c, r, slot, now, o, tasks)
                 else FreeFill(c, r, slot, now, o, tasks + if c.lang.Go? then [Task(key, Helper)] else [])
  {
    hide Solo;
    assert tasks + [] == tasks;
    var pc := CoopWait(if c.lang.Go? then Some(0) else None);
    var tasks' := if c.lang.Go? && slot.holder.Some? then tasks + [Task(key, Helper)] else tasks;
    ToFill(c, key, r, slot, now, o, tasks);
    SoloStep(c, key, Call(r), Dispatch, slot, now, o, tasks);
    if slot.holder.None? {
      Fills(c, key, r, pc, slot, now, o, tasks');
    } else {
      TimeoutChain(c, key, r, pc, slot, now, o, tasks');
      FreeMeans(c, key, r, slot, now, o, tasks');
    }
  }

  /** STALE_OR_SYNC answers a readable shadow, and leaves a refresh behind, in Go only if background refresh
      is not disabled; Python queues it before it decodes the value.  Without a shadow it fills as SYNC. */
  lemma StaleMeans(c: Config, key: Key, r: Request, slot: Slot, now: Time, o: Oracle, tasks: seq<Task>)
    requires Misses(c, r, slot, now, o) && r.miss.StaleOrSync? && r.gen.Some?
    ensures var worker := if c.lang.Python? then [Task(key, Refresh(r.ttl, r.gen))]
                          else if r.noRefresh then [] else [Task(key, StaleRefresh(r.ttl, r.gen))];
            && (forall x :: ShadowGet !in o.down && HasValue(slot.shadow, x, now) ==>
                  Solo(c, key, Call(r), Look, slot, now, o, tasks)
                    == if c.lang.Python? && ShadowDecode in o.down then Alone(slot, Some(Complaint(r)), tasks + worker)
                       else Alone(Stamped(c, r, slot, now), Some(Stale(x)), tasks + worker))
            && (ShadowGet in o.down && c.lang.Python? ==>
                  Solo(c, key, Call(r), Look, slot, now, o, tasks) == Alone(slot, Some(Complaint(r)), tasks))
            && ((ShadowGet in o.down && c.lang.Go?) || (ShadowGet !in o.down && Gone(slot.shadow, now)) ==>
                  Solo(c, key, Call(r), Look, slot, now, o, tasks)
                    == if slot.holder.Some? then Alone(slot, None, tasks) else LockedFill(c, r, slot, now, o, tasks))
  {
    hide Solo;
    ToFill(c, key, r, slot, now, o, tasks);
    SoloStep(c, key, Call(r), Dispatch, slot, now, o, tasks);
    ShadowChain(c, key, r, slot, now, o, tasks);
    var seen := if ShadowGet in o.down then None else Read(slot.shadow, now);
    if seen.Some? {
      var out := if c.lang.Python? && ShadowDecode in o.down then Failed else Stale(seen.value);
      Ends(c, key, r, out, slot, now, o, tasks + StaleTasks(c, key, r));
    } else if ShadowGet in o.down && c.lang.Python? {
      Ends(c, key, r, Failed, slot, now, o, tasks);
    } else {
      FillsOrWaits(c, key, r, slot, now, o, tasks);
    }
  }

  // ---------------------------------------------------------------------------------------------
  // All policies at once
  // ---------------------------------------------------------------------------------------------

  /** The error policy on an undisturbed call, whatever its options and whatever fails. */
  lemma AnswerMeans(c: Config, key: Key, r: Request, slot: Slot, now: Time, o: Oracle, tasks: seq<Task>)
    requires c.lang.Go? ==> r.gen.Some?
    ensures var out := Solo(c, key, Call(r), Look, slot, now, o, tasks).out;
            && (r.err.Surface? ==> out != Some(Zero))
            && (r.err.ZeroValue? ==> (out == Some(Failed) <==> c.lang.Go? && FirstGet in o.down))
            && (out == Some(Missed) <==> r.miss.FailFast? && Misses(c, r, slot, now, o))
  {
    hide Solo;
    if FirstGet in o.down {
      FirstGetFails(c, key, r, slot, now, o, tasks);
    } else if !Gone(slot.main, now) {
      HitMeans(c, key, r, slot.main.value.value, slot, now, o, tasks);
    } else if !Misses(c, r, slot, now, o) {
      SecondGetFails(c, key, r, slot, now, o, tasks);
    } else if r.miss.FailFast? {
      FailFastMeans(c, key, r, slot, now, o, tasks);
    } else if r.gen.None? {
      NoGeneratorMeans(c, key, r, slot, now, o, tasks);
    } else {
      FillAnswers(c, key, r, slot, now, o, tasks);
    }
  }

  lemma FillAnswers(c: Config, key: Key, r: Request, slot: Slot, now: Time, o: Oracle, tasks: seq<Task>)
    requires Misses(c, r, slot, now, o) && !r.miss.FailFast? && r.gen.Some?
    ensures var out := Solo(c, key, Call(r), Look, slot, now, o, tasks).out;
            out == Some(Complaint(r)) || out.None? || (out.value.Filled? || out.value.Generated? || out.value.Stale?)
  {
    hide Solo;
    match r.miss
    case Sync => SyncMeans(c, key, r, slot, now, o, tasks);
    case Async => AsyncMeans(c, key, r, slot, now, o, tasks);
    case StaleOrSync =>
      StaleMeans(c, key, r, slot, now, o, tasks);
      if ShadowGet !in o.down && !Gone(slot.shadow, now) { assert HasValue(slot.shadow, slot.shadow.value.value, now); }
    case Cooperative => CooperativeMeans(c, key, r, slot, now, o, tasks);
  }

  /** The entry a SYNC fill leaves when nothing fails: the generated value, for the call's ttl. */
  lemma SyncStores(c: Config, key: Key, r: Request, slot: Slot, now: Time, o: Oracle, tasks: seq<Task>)
    requires (c.lang.Go? ==> r.gen.Some?) && r.miss.Sync? && r.gen.Some? && r.ttl > 0
    requires slot.holder.None? && Gone(slot.main, now) && o.down == {} && o.gen.Some?
    ensures var alone := Solo(c, key, Call(r), Look, slot, now, o, tasks);
            alone.out == Some(Filled(o.gen.value)) && alone.slot.main == Some(Entry(o.gen.value, Some(now + r.ttl)))
  {
    hide Solo;
    SyncMeans(c, key, r, slot, now, o, tasks);
  }

  // ---------------------------------------------------------------------------------------------
  // Background workers and direct operations
  // ---------------------------------------------------------------------------------------------

  /** A worker behind a taken lock gives up; the write-back writes, for its ttl, exactly if the key is gone. */
  lemma WriteBackMeans(c: Config, key: Key, x: Value, ttl: int, slot: Slot, now: Time, o: Oracle, tasks: seq<Task>)
    ensures Shape(c, WriteBack(x, ttl), TryLock)
    ensures Solo(c, key, WriteBack(x, ttl), TryLock, slot, now, o, tasks)
              == Alone(if slot.holder.None? && LockedGet !in o.down && Gone(slot.main, now)
                       then Written(c, slot, x, ttl, now, o) else slot, Some(Quiet), tasks)
  {
    hide Solo;
    var job := WriteBack(x, ttl);
    if slot.holder.Some? {
      BusyChain(c, key, job, slot, now, o, tasks);
    } else {
      WriteBackChain(c, key, x, ttl, slot, now, o, tasks);
      if LockedGet !in o.down && Gone(slot.main, now) {
        WorkerWrites(c, key, job, x, slot, now, o, tasks);
      } else {
        WorkerReleases(c, key, job, slot.(holder := Some(0)), now, o, tasks);
      }
    }
  }

  lemma WorkerWrites(c: Config, key: Key, job: Job, x: Value, slot: Slot, now: Time, o: Oracle, tasks: seq<Task>)
    requires (job.WriteBack? || job.Refresh?) && Shape(c, job, Put(x)) && slot.holder.None?
    ensures Solo(c, key, job, Put(x), slot.(holder := Some(0)), now, o, tasks)
              == Alone(Written(c, slot, x, job.ttl, now, o), Some(Quiet), tasks)
  {
    hide Solo;
    var held := slot.(holder := Some(0));
    SetChain(c, key, job, held, x, now, o, tasks);
    WorkerReleases(c, key, job, WithSet(c, held, x, Ttl(job), now, o), now, o, tasks);
    WrittenIs(c, slot, x, Ttl(job), now, o);
    assert WithSet(c, held, x, Ttl(job), now, o).(holder := None) == WithSet(c, slot, x, Ttl(job), now, o);
  }

  /** The background refresh writes, for its ttl, exactly if it is due and its generator succeeds. */
  lemma RefreshMeans(c: Config, key: Key, ttl: int, gen: Generator, slot: Slot, now: Time, o: Oracle, tasks: seq<Task>)
    ensures Shape(c, Refresh(ttl, Some(gen)), TryLock)
    ensures Solo(c, key, Refresh(ttl, Some(gen)), TryLock, slot, now, o, tasks)
              == Alone(if slot.holder.None? && Due(c, slot, now) && o.gen.Some?
                       then Written(c, slot, o.gen.value, ttl, now, o) else slot, Some(Quiet), tasks)
  {
    hide Solo;
    var job := Refresh(ttl, Some(gen));
    if slot.holder.Some? {
      BusyChain(c, key, job, slot, now, o, tasks);
    } else {
      RefreshChain(c, key, job, slot, now, o, tasks);
      if Due(c, slot, now) && o.gen.Some? {
        WorkerWrites(c, key, job, o.gen.value, slot, now, o, tasks);
      } else {
        WorkerReleases(c, key, job, slot.(holder := Some(0)), now, o, tasks);
      }
    }
  }

  /** Go's stale rewrite does not ask whether it is due, and writes the shadow for stale_ttl whether or not
      the main key took the value. */
  lemma StaleRefreshMeans(c: Config, key: Key, ttl: int, gen: Generator, slot: Slot, now: Time, o: Oracle,
                          tasks: seq<Task>)
    requires c.lang.Go?
    ensures Shape(c, StaleRefresh(ttl, Some(gen)), TryLock)
    ensures var written := if o.gen.Some? then Written(c, slot, o.gen.value, ttl, now, o) else slot;
            var slot' := if o.gen.Some? && SetStaleKey !in o.down
                         then written.(shadow := Stored(o.gen.value, now, c.staleTtl)) else written;
            Solo(c, key, StaleRefresh(ttl, Some(gen)), TryLock, slot, now, o, tasks)
              == Alone(if slot.holder.None? then slot' else slot, Some(Quiet), tasks)
  {
    hide Solo;
    var job, held := StaleRefresh(ttl, Some(gen)), slot.(holder := Some(0));
    if slot.holder.Some? {
      BusyChain(c, key, job, slot, now, o, tasks);
    } else {
      RefreshChain(c, key, job, slot, now, o, tasks);
      if o.gen.None? {
        WorkerReleases(c, key, job, held, now, o, tasks);
      } else {
        StaleWrites(c, key, job, o.gen.value, slot, now, o, tasks);
      }
    }
  }

  lemma StaleWrites(c: Config, key: Key, job: Job, x: Value, slot: Slot, now: Time, o: Oracle, tasks: seq<Task>)
    requires c.lang.Go? && job.StaleRefresh? && Shape(c, job, Put(x)) && slot.holder.None?
    ensures var written := Written(c, slot, x, job.ttl, now, o);
            Solo(c, key, job, Put(x), slot.(holder := Some(0)), now, o, tasks)
              == Alone(if SetStaleKey !in o.down then written.(shadow := Stored(x, now, c.staleTtl)) else written,
                       Some(Quiet), tasks)
  {
    hide Solo;
    var held := slot.(holder := Some(0));
    var one := WithSet(c, held, x, job.ttl, now, o);
    SetChain(c, key, job, held, x, now, o, tasks);
    WrittenIs(c, slot, x, job.ttl, now, o);
    SoloStep(c, key, job, PutShadow(x), one, now, o, tasks);
    var two := if SetStaleKey in o.down then one else one.(shadow := Stored(x, now, c.staleTtl));
    WorkerReleases(c, key, job, two, now, o, tasks);
    assert one.(holder := None) == WithSet(c, slot, x, job.ttl, now, o);
  }

  /** A direct `Set` or `set` writes without the lock, and says whether it succeeded. */
  lemma AssignMeans(c: Config, key: Key, x: Value, ttl: int, slot: Slot, now: Time, o: Oracle, tasks: seq<Task>)
    ensures Shape(c, Assign(x, ttl), Put(x))
    ensures Solo(c, key, Assign(x, ttl), Put(x), slot, now, o, tasks)
              == Alone(Written(c, slot, x, ttl, now, o),
                       Some(if Lands(c, ttl, o) && ShadowLands(c, o) then Quiet else Failed), tasks)
  {
    hide Solo;
    var out := if SetSucceeds(c, ttl, o) then Quiet else Failed;
    SetChain(c, key, Assign(x, ttl), slot, x, now, o, tasks);
    WrittenIs(c, slot, x, ttl, now, o);
    SoloDone(c, key, Assign(x, ttl), out, WithSet(c, slot, x, ttl, now, o), now, o, tasks);
  }

  /** A direct `delete` removes both entries at once, or fails. */
  lemma RemoveMeans(c: Config, key: Key, slot: Slot, now: Time, o: Oracle, tasks: seq<Task>)
    requires c.lang.Python?
    ensures Solo(c, key, Remove, Drop, slot, now, o, tasks)
              == if Delete in o.down then Alone(slot, Some(Failed), tasks)
                 else Alone(slot.(main := None, shadow := None), Some(Quiet), tasks)
  {
    hide Solo;
    SoloStep(c, key, Remove, Drop, slot, now, o, tasks);
    var slot' := if Delete in o.down then slot else slot.(main := None, shadow := None);
    SoloDone(c, key, Remove, if Delete in o.down then Failed else Quiet, slot', now, o, tasks);
  }
}
