/** One call running with nobody else: the meaning of the handler methods, and its place in the step
    machine. */
module Undisturbed {
  import opened Vocabulary
  import opened Protocol
  import opened Locking
  import opened Progress

  datatype Task = Task(key: Key, job: Job)

  /** The Redis commands a job may send; decoding the shadow is a step of its own, because Python queues
      the refresh before it. */
  datatype Command =
    FirstGet | SecondGet | LockedGet | ShadowGet | ShadowDecode | AskTtl | SetKey | SetStaleKey | Delete

  /** What the outside decides for one undisturbed job: the generator's answer, the draw of the
      probabilistic trigger, and the commands that fail. */
  datatype Oracle = Oracle(gen: Option<Value>, draw: bool, down: set<Command>)

  /** Where a job got to on its own: its end, with the outcome, or (None) the wait for a lock that another
      thread holds. */
  datatype Alone = Alone(slot: Slot, out: Option<Outcome>, tasks: seq<Task>)

  function CommandAt(c: Config, job: Job, pc: PC): Option<Command> {
    match pc
    case Look => Some(FirstGet)
    case Trigger(_) => if job.Call? && AsksTtl(c.lang, job.req.hit) then Some(AskTtl) else None
    case Reread => Some(SecondGet)
    case StaleGet => Some(ShadowGet)
    case Check => Some(LockedGet)
    case Put(_) => Some(SetKey)
    case PutShadow(_) => Some(SetStaleKey)
    case Drop => Some(Delete)
    case _ => None
  }

  predicate Down(c: Config, o: Oracle, job: Job, pc: PC) {
    CommandAt(c, job, pc).Some? && CommandAt(c, job, pc).value in o.down
  }

  /** A bounded wait times out exactly when the lock is taken: nobody else is there to release it. */
  function ChoiceOf(c: Config, o: Oracle, job: Job, pc: PC, v: View): Choice {
    if pc.Gen? || pc.FreeGen? then (if o.gen.Some? then Yield(o.gen.value) else Fail)
    else if Down(c, o, job, pc) then Fail
    else if pc.StaleGet? && c.lang.Python? && v.shadow.Some? && ShadowDecode in o.down then Garbled
    else if pc.Trigger? && job.Call? && job.req.hit.Probabilistic? && !o.draw then Skip
    else if pc.CoopWait? && !v.free then Timeout
    else Ok
  }

  /** The cooperative helper of Go runs to its end at once when nobody holds the lock. */
  function ViewAlone(slot: Slot, now: Time): View {
    View(now, Read(slot.main, now), Read(slot.shadow, now), Remaining(slot.main, now),
         slot.holder.None?, slot.last, slot.created, slot.holder.None?, 0)
  }

  /** Spawned jobs are queued; a helper stays behind only if the lock is taken. */
  function Queued(tasks: seq<Task>, key: Key, slot: Slot, cmd: Cmd): seq<Task> {
    if cmd.Spawn? && !(cmd.job.Helper? && slot.holder.None?) then tasks + [Task(key, cmd.job)] else tasks
  }

  /** A job of `key` from program point pc as far as it gets alone, one step of the protocol after the
      other. */
  function Solo(c: Config, key: Key, job: Job, pc: PC, slot: Slot, now: Time, o: Oracle, tasks: seq<Task>): Alone
    requires Shape(c, job, pc)
    decreases Weight(Thread(key, job, pc, 0))
  {
    var v := ViewAlone(slot, now);
    var ch := ChoiceOf(c, o, job, pc, v);
    if !Can(c, pc, v, ch) then Alone(slot, if pc.Done? then Some(pc.out) else None, tasks)
    else
      LocalShape(c, job, pc, v, ch);
      LocalWeight(c, Thread(key, job, pc, 0), v, ch, 0);
      var (pc', cmd) := Local(c, job, pc, v, ch);
      Solo(c, key, job, pc', Effect(slot, now, 0, cmd), now, o, Queued(tasks, key, slot, cmd))
  }

  predicate CanAlone(c: Config, job: Job, pc: PC, slot: Slot, now: Time, o: Oracle) {
    Can(c, pc, ViewAlone(slot, now), ChoiceOf(c, o, job, pc, ViewAlone(slot, now)))
  }

  /** The step a job takes when it is alone. */
  function SoloAct(c: Config, job: Job, pc: PC, slot: Slot, now: Time, o: Oracle): (PC, Cmd)
    requires CanAlone(c, job, pc, slot, now, o)
  {
    Local(c, job, pc, ViewAlone(slot, now), ChoiceOf(c, o, job, pc, ViewAlone(slot, now)))
  }

  lemma SoloStep(c: Config, key: Key, job: Job, pc: PC, slot: Slot, now: Time, o: Oracle, tasks: seq<Task>)
    requires Shape(c, job, pc) && CanAlone(c, job, pc, slot, now, o)
    ensures var (pc', cmd) := SoloAct(c, job, pc, slot, now, o);
            Shape(c, job, pc') &&
            Solo(c, key, job, pc, slot, now, o, tasks)
              == Solo(c, key, job, pc', Effect(slot, now, 0, cmd), now, o, Queued(tasks, key, slot, cmd))
  {
    LocalShape(c, job, pc, ViewAlone(slot, now), ChoiceOf(c, o, job, pc, ViewAlone(slot, now)));
  }

  lemma SoloDone(c: Config, key: Key, job: Job, out: Outcome, slot: Slot, now: Time, o: Oracle, tasks: seq<Task>)
    requires Shape(c, job, Done(out))
    ensures Solo(c, key, job, Done(out), slot, now, o, tasks) == Alone(slot, Some(out), tasks)
  {
  }

  /** The blocking wait for a lock that is taken. */
  lemma SoloBlocked(c: Config, key: Key, job: Job, slot: Slot, now: Time, o: Oracle, tasks: seq<Task>)
    requires Shape(c, job, LockWait) && slot.holder.Some?
    ensures Solo(c, key, job, LockWait, slot, now, o, tasks) == Alone(slot, None, tasks)
  {
  }

  /** From the wait for a free lock to the decision of the second look. */
  lemma LockedChain(c: Config, key: Key, r: Request, pc: PC, slot: Slot, now: Time, o: Oracle, tasks: seq<Task>)
    requires (pc.LockWait? || pc.CoopWait?) && Shape(c, Call(r), pc) && slot.holder.None?
    ensures var held, seen := slot.(holder := Some(0)), Read(slot.main, now);
            var pc' := if LockedGet in o.down then Unlock(Failed)
                       else if seen.Some? then Unlock(Cached(seen.value))
                       else if o.gen.None? then Unlock(Failed) else Put(o.gen.value);
            Shape(c, Call(r), pc') &&
            Solo(c, key, Call(r), pc, slot, now, o, tasks) == Solo(c, key, Call(r), pc', held, now, o, tasks)
  {
    hide Solo;
    var held := slot.(holder := Some(0));
    SoloStep(c, key, Call(r), pc, slot, now, o, tasks);
    if pc.CoopWait? && c.lang.Go? {
      SoloStep(c, key, Call(r), LockWait, slot, now, o, tasks);
    }
    SoloStep(c, key, Call(r), Check, held, now, o, tasks);
    if LockedGet !in o.down && Read(slot.main, now).None? {
      SoloStep(c, key, Call(r), GenReady, held, now, o, tasks);
      SoloStep(c, key, Call(r), Gen, held, now, o, tasks);
    }
  }

  /** From the release of the lock to the end of the fill policy. */
  lemma ReleaseChain(c: Config, key: Key, r: Request, out: Outcome, slot: Slot, now: Time, o: Oracle, tasks: seq<Task>)
    requires Shape(c, Call(r), Unlock(out))
    ensures Shape(c, Call(r), Finish(r, out))
    ensures Solo(c, key, Call(r), Unlock(out), slot, now, o, tasks)
              == Solo(c, key, Call(r), Finish(r, out), slot.(holder := None), now, o, tasks)
  {
    hide Solo;
    SoloStep(c, key, Call(r), Unlock(out), slot, now, o, tasks);
  }

  /** The first look. */
  lemma LookChain(c: Config, key: Key, r: Request, slot: Slot, now: Time, o: Oracle, tasks: seq<Task>)
    requires Shape(c, Call(r), Look)
    ensures var seen := Read(slot.main, now);
            var pc := if FirstGet in o.down then Done(if c.lang.Go? then Failed else Settle(r, Failed))
                      else if seen.None? then Dedup
                      else if r.noRefresh then Done(Cached(seen.value)) else Trigger(seen.value);
            Shape(c, Call(r), pc) &&
            Solo(c, key, Call(r), Look, slot, now, o, tasks) == Solo(c, key, Call(r), pc, slot, now, o, tasks)
  {
    hide Solo;
    SoloStep(c, key, Call(r), Look, slot, now, o, tasks);
  }

  /** The deduplication check and the second look. */
  lemma DedupChain(c: Config, key: Key, r: Request, slot: Slot, now: Time, o: Oracle, tasks: seq<Task>)
    requires Shape(c, Call(r), Dedup)
    ensures var seen := Read(slot.main, now);
            var pc := if !WroteRecently(c, r.ttl, ViewAlone(slot, now)) then Dispatch
                      else if SecondGet in o.down then (if c.lang.Go? then Dispatch else Done(Settle(r, Failed)))
                      else if seen.Some? then Done(Cached(seen.value)) else Dispatch;
            Shape(c, Call(r), pc) &&
            Solo(c, key, Call(r), Dedup, slot, now, o, tasks) == Solo(c, key, Call(r), pc, slot, now, o, tasks)
  {
    hide Solo;
    SoloStep(c, key, Call(r), Dedup, slot, now, o, tasks);
    if WroteRecently(c, r.ttl, ViewAlone(slot, now)) {
      SoloStep(c, key, Call(r), Reread, slot, now, o, tasks);
    }
  }

  /** The SET of the main key is accepted. */
  predicate MainLands(c: Config, ttl: int, o: Oracle) {
    SetKey !in o.down && (c.lang.Python? ==> ttl > 0)
  }

  /** A Python `set` also writes the shadow. */
  predicate Pairs(c: Config) {
    c.lang.Python? && c.staleTtl > 0
  }

  predicate SetSucceeds(c: Config, ttl: int, o: Oracle) {
    MainLands(c, ttl, o) && (Pairs(c) ==> SetStaleKey !in o.down)
  }

  /** A slot after a `Set` or `set`: a failing command leaves what was done before it, and no time. */
  function WithSet(c: Config, slot: Slot, x: Value, ttl: int, now: Time, o: Oracle): Slot {
    if !MainLands(c, ttl, o) then slot
    else
      var written := slot.(main := Some(Fresh(x, now, ttl)));
      if Pairs(c) && SetStaleKey in o.down then written
      else written.(shadow := if Pairs(c) then Some(Fresh(x, now, ttl + c.staleTtl)) else slot.shadow,
                    last := if Records(c) then Some(now) else slot.last)
  }

  /** Where a job is after its `Set` or `set`. */
  function AfterSet(job: Job, x: Value, ok: bool): PC {
    match job
    case Call(_) => Unlock(if ok then Filled(x) else Failed)
    case Assign(_, _) => Done(if ok then Quiet else Failed)
    case StaleRefresh(_, _) => PutShadow(x)
    case _ => Unlock(Quiet)
  }

  lemma PutStep(c: Config, key: Key, job: Job, slot: Slot, x: Value, now: Time, o: Oracle, tasks: seq<Task>)
    requires Shape(c, job, Put(x))
    ensures var pc := if !MainLands(c, Ttl(job), o) then AfterSet(job, x, false)
                      else if Pairs(c) then PutShadow(x) else Record(x);
            var slot' := if MainLands(c, Ttl(job), o) then slot.(main := Some(Fresh(x, now, Ttl(job)))) else slot;
            Shape(c, job, pc) &&
            Solo(c, key, job, Put(x), slot, now, o, tasks) == Solo(c, key, job, pc, slot', now, o, tasks)
  {
    hide Solo;
    SoloStep(c, key, job, Put(x), slot, now, o, tasks);
  }

  lemma PutShadowStep(c: Config, key: Key, job: Job, slot: Slot, x: Value, now: Time, o: Oracle, tasks: seq<Task>)
    requires Pairs(c) && Shape(c, job, PutShadow(x))
    ensures var ok := SetStaleKey !in o.down;
            var pc := if ok then Record(x) else AfterSet(job, x, false);
            var slot' := if ok then slot.(shadow := Some(Fresh(x, now, Ttl(job) + c.staleTtl))) else slot;
            Shape(c, job, pc) &&
            Solo(c, key, job, PutShadow(x), slot, now, o, tasks) == Solo(c, key, job, pc, slot', now, o, tasks)
  {
    hide Solo;
    SoloStep(c, key, job, PutShadow(x), slot, now, o, tasks);
  }

  lemma RecordStep(c: Config, key: Key, job: Job, slot: Slot, x: Value, now: Time, o: Oracle, tasks: seq<Task>)
    requires Shape(c, job, Record(x))
    ensures Shape(c, job, AfterSet(job, x, true))
    ensures Solo(c, key, job, Record(x), slot, now, o, tasks)
              == Solo(c, key, job, AfterSet(job, x, true),
                      slot.(last := if Records(c) then Some(now) else slot.last), now, o, tasks)
  {
    hide Solo;
    SoloStep(c, key, job, Record(x), slot, now, o, tasks);
  }

  /** The steps of a `Set` or `set`, whichever of its commands fail. */
  lemma SetChain(c: Config, key: Key, job: Job, slot: Slot, x: Value, now: Time, o: Oracle, tasks: seq<Task>)
    requires Shape(c, job, Put(x))
    ensures var pc := AfterSet(job, x, SetSucceeds(c, Ttl(job), o));
            Shape(c, job, pc) &&
            Solo(c, key, job, Put(x), slot, now, o, tasks)
              == Solo(c, key, job, pc, WithSet(c, slot, x, Ttl(job), now, o), now, o, tasks)
  {
    hide Solo;
    hide Shape;
    hide Fresh;
    hide AfterSet;
    PutStep(c, key, job, slot, x, now, o, tasks);
    if MainLands(c, Ttl(job), o) {
      var one := slot.(main := Some(Fresh(x, now, Ttl(job))));
      if !Pairs(c) {
        RecordStep(c, key, job, one, x, now, o, tasks);
      } else {
        PutShadowStep(c, key, job, one, x, now, o, tasks);
        if SetStaleKey !in o.down {
          RecordStep(c, key, job, one.(shadow := Some(Fresh(x, now, Ttl(job) + c.staleTtl))), x, now, o, tasks);
        }
      }
    }
  }

  /** The fill outside the lock: generate, and queue the write if the policy is ASYNC. */
  lemma FreeChain(c: Config, key: Key, r: Request, slot: Slot, now: Time, o: Oracle, tasks: seq<Task>)
    requires Shape(c, Call(r), FreeReady)
    ensures var out := if o.gen.None? then Failed else Generated(o.gen.value);
            var tasks' := if o.gen.Some? && r.miss.Async? then tasks + [Task(key, WriteBack(o.gen.value, r.ttl))]
                          else tasks;
            Shape(c, Call(r), Finish(r, out)) &&
            Solo(c, key, Call(r), FreeReady, slot, now, o, tasks)
              == Solo(c, key, Call(r), Finish(r, out), slot, now, o, tasks')
  {
    hide Solo;
    SoloStep(c, key, Call(r), FreeReady, slot, now, o, tasks);
    SoloStep(c, key, Call(r), FreeGen, slot, now, o, tasks);
    if o.gen.Some? && r.miss.Async? {
      SoloStep(c, key, Call(r), Handoff(o.gen.value), slot, now, o, tasks);
    }
  }

  /** A cooperative wait for a lock that is taken times out. */
  lemma TimeoutChain(c: Config, key: Key, r: Request, pc: PC, slot: Slot, now: Time, o: Oracle, tasks: seq<Task>)
    requires pc.CoopWait? && Shape(c, Call(r), pc) && slot.holder.Some?
    ensures Shape(c, Call(r), FreeReady)
    ensures Solo(c, key, Call(r), pc, slot, now, o, tasks) == Solo(c, key, Call(r), FreeReady, slot, now, o, tasks)
  {
    hide Solo;
    SoloStep(c, key, Call(r), pc, slot, now, o, tasks);
  }

  /** What a stale answer leaves behind. */
  function StaleTasks(c: Config, key: Key, r: Request): seq<Task> {
    if c.lang.Python? then [Task(key, Refresh(r.ttl, r.gen))]
    else if r.noRefresh then [] else [Task(key, StaleRefresh(r.ttl, r.gen))]
  }

  /** The look at the shadow: a stale answer, the SYNC fill, or (in Python) a failure, which leaves a
      refresh behind if it is the decoding that fails. */
  lemma ShadowChain(c: Config, key: Key, r: Request, slot: Slot, now: Time, o: Oracle, tasks: seq<Task>)
    requires Shape(c, Call(r), StaleGet)
    ensures var seen := if ShadowGet in o.down then None else Read(slot.shadow, now);
            var pc := if seen.Some? && !(ShadowDecode in o.down && c.lang.Python?) then Finish(r, Stale(seen.value))
                      else if seen.Some? then Finish(r, Failed)
                      else if ShadowGet in o.down && c.lang.Python? then Finish(r, Failed) else LockWait;
            Shape(c, Call(r), pc) &&
            Solo(c, key, Call(r), StaleGet, slot, now, o, tasks)
              == Solo(c, key, Call(r), pc, slot, now, o, if seen.Some? then tasks + StaleTasks(c, key, r) else tasks)
  {
    hide Solo;
    SoloStep(c, key, Call(r), StaleGet, slot, now, o, tasks);
    assert tasks + [] == tasks;
  }

  /** A hit raises in Python: the TTL command fails, or AHEAD divides by a zero TTL. */
  predicate HitRaises(c: Config, r: Request, v: View, o: Oracle) {
    c.lang.Python? && r.gen.Some? &&
    ((AsksTtl(c.lang, r.hit) && AskTtl in o.down) || AheadRaises(c.lang, r, v.remaining))
  }

  /** A hit queues a background refresh. */
  predicate HitLaunches(c: Config, r: Request, v: View, o: Oracle) {
    && (c.lang.Python? ==> r.gen.Some?)
    && !(AsksTtl(c.lang, r.hit) && AskTtl in o.down)
    && !AheadRaises(c.lang, r, v.remaining)
    && Fires(c, r, v, if o.draw then Ok else Skip)
    && ((c.lang.Go? && !r.hit.OnHit?) || Cooled(c, v))
  }

  lemma HitChain(c: Config, key: Key, r: Request, x: Value, slot: Slot, now: Time, o: Oracle, tasks: seq<Task>)
    requires Shape(c, Call(r), Trigger(x))
    ensures var v := ViewAlone(slot, now);
            var out := if HitRaises(c, r, v, o) then Settle(r, Failed) else Cached(x);
            var tasks' := if HitLaunches(c, r, v, o) then tasks + [Task(key, Refresh(r.ttl, r.gen))] else tasks;
            Solo(c, key, Call(r), Trigger(x), slot, now, o, tasks)
              == Solo(c, key, Call(r), Done(out), slot, now, o, tasks')
  {
    hide Solo;
    var v := ViewAlone(slot, now);
    SoloStep(c, key, Call(r), Trigger(x), slot, now, o, tasks);
    var (pc', _) := SoloAct(c, Call(r), Trigger(x), slot, now, o);
    if pc'.Gate? {
      SoloStep(c, key, Call(r), Gate(x), slot, now, o, tasks);
    }
  }

  /** The end of a call: the probabilistic stamp, if any. */
  lemma FinishChain(c: Config, key: Key, r: Request, out: Outcome, slot: Slot, now: Time, o: Oracle, tasks: seq<Task>)
    requires Shape(c, Call(r), Finish(r, out))
    ensures var stamped := if !(Success(out) && r.hit.Probabilistic?) then slot
                           else if c.lang.Go? then slot.(created := Some(now))
                           else if Records(c) then slot.(last := Some(now)) else slot;
            Solo(c, key, Call(r), Finish(r, out), slot, now, o, tasks) == Alone(stamped, Some(Settle(r, out)), tasks)
  {
    if Finish(r, out).Stamp? {
      SoloStep(c, key, Call(r), Stamp(out), slot, now, o, tasks);
    }
  }

  /** A background worker whose key is locked gives up. */
  lemma BusyChain(c: Config, key: Key, job: Job, slot: Slot, now: Time, o: Oracle, tasks: seq<Task>)
    requires Shape(c, job, TryLock) && slot.holder.Some?
    ensures Solo(c, key, job, TryLock, slot, now, o, tasks) == Alone(slot, Some(Quiet), tasks)
  {
    hide Solo;
    SoloStep(c, key, job, TryLock, slot, now, o, tasks);
    SoloDone(c, key, job, Quiet, slot, now, o, tasks);
  }

  /** The background write with the lock: it goes on to its SET exactly when the key is seen absent. */
  lemma WriteBackChain(c: Config, key: Key, x: Value, ttl: int, slot: Slot, now: Time, o: Oracle, tasks: seq<Task>)
    requires slot.holder.None?
    ensures var job, held := WriteBack(x, ttl), slot.(holder := Some(0));
            var pc := if LockedGet !in o.down && Read(slot.main, now).None? then Put(x) else Unlock(Quiet);
            Shape(c, job, TryLock) && Shape(c, job, pc) &&
            Solo(c, key, job, TryLock, slot, now, o, tasks) == Solo(c, key, job, pc, held, now, o, tasks)
  {
    hide Solo;
    var job, held := WriteBack(x, ttl), slot.(holder := Some(0));
    SoloStep(c, key, job, TryLock, slot, now, o, tasks);
    SoloStep(c, key, job, Check, held, now, o, tasks);
  }

  /** A refresh with the lock: it generates exactly when the cooldown is over, and writes exactly when
      the generator succeeds.  Go's stale refresh does not ask for the cooldown. */
  lemma RefreshChain(c: Config, key: Key, job: Job, slot: Slot, now: Time, o: Oracle, tasks: seq<Task>)
    requires (job.Refresh? || job.StaleRefresh?) && Shape(c, job, TryLock) && slot.holder.None?
    ensures var held := slot.(holder := Some(0));
            var goes := job.StaleRefresh? || Cooled(c, ViewAlone(slot, now));
            var pc := if goes && o.gen.Some? then Put(o.gen.value) else Unlock(Quiet);
            Shape(c, job, pc) &&
            Solo(c, key, job, TryLock, slot, now, o, tasks) == Solo(c, key, job, pc, held, now, o, tasks)
  {
    hide Solo;
    var held := slot.(holder := Some(0));
    SoloStep(c, key, job, TryLock, slot, now, o, tasks);
    if job.Refresh? { SoloStep(c, key, job, Cool, held, now, o, tasks); }
    if job.StaleRefresh? || Cooled(c, ViewAlone(slot, now)) {
      SoloStep(c, key, job, GenReady, held, now, o, tasks);
      SoloStep(c, key, job, Gen, held, now, o, tasks);
    }
  }

  lemma WorkerReleases(c: Config, key: Key, job: Job, slot: Slot, now: Time, o: Oracle, tasks: seq<Task>)
    requires Shape(c, job, Unlock(Quiet)) && !job.Call?
    ensures Solo(c, key, job, Unlock(Quiet), slot, now, o, tasks) == Alone(slot.(holder := None), Some(Quiet), tasks)
  {
    hide Solo;
    SoloStep(c, key, job, Unlock(Quiet), slot, now, o, tasks);
    SoloDone(c, key, job, Quiet, slot.(holder := None), now, o, tasks);
  }
}
