/** Concrete runs, built one event at a time: one key, at time 0, on a handler that is new. */
module Scenarios {
  import opened Vocabulary
  import opened Protocol

  function World(slot: Slot, ths: seq<Thread>): State {
    State(0, map["k" := slot], ths)
  }

  function Acting(job: Job, pc: PC): Thread {
    Thread("k", job, pc, 0)
  }

  function CallWith(p: Miss): Job {
    Call(Request(10, p, NoHit, true, Surface, Some(Registered(1))))
  }

  /** r is a run whose calls use p, with background refresh disabled, and which has led to this world. */
  ghost predicate Scene(c: Config, p: Miss, r: Run, slot: Slot, ths: seq<Thread>) {
    IsRun(c, r) && OnlyMiss(r, "k", p) && OnlyDisabled(r, "k") && Last(r) == World(slot, ths)
  }

  /** A new handler, on whatever Redis holds. */
  lemma Opening(c: Config, p: Miss, slot: Slot) returns (r: Run)
    requires slot.holder.None? && slot.last.None? && slot.created.None?
    ensures Scene(c, p, r, slot, [])
  {
    r := Start(World(slot, []));
  }

  lemma Arrives(c: Config, p: Miss, r: Run, slot: Slot, ths: seq<Thread>, job: Job) returns (r': Run)
    requires Scene(c, p, r, slot, ths) && Admissible(c, job) && (job.Call? ==> job.req.miss == p && job.req.noRefresh)
    ensures Scene(c, p, r', slot, ths + [Acting(job, InitialPc(job))])
  {
    r' := Then(r, Begin("k", job), World(slot, ths + [Acting(job, InitialPc(job))]));
    assert r'.state.slots == Last(r).slots["k" := At(Last(r), "k")];
  }

  /** What a thread sees of the world. */
  function Sight(slot: Slot, ths: seq<Thread>, t: Tid): (v: View)
    requires t < |ths| && ths[t].key == "k"
    ensures v.now == 0 && v.main == Read(slot.main, 0) && v.free == slot.holder.None? && v.last == slot.last
    ensures v.child == |ths| && v.signalled == Signalled(World(slot, ths), ths[t].pc)
  {
    ViewOf(World(slot, ths), t)
  }

  predicate Goes(c: Config, job: Job, pc: PC, v: View, ch: Choice, pc': PC, cmd: Cmd) {
    Can(c, pc, v, ch) && Local(c, job, pc, v, ch) == (pc', cmd)
  }

  /** The threads after thread t has moved to pc. */
  function Moved(ths: seq<Thread>, t: Tid, pc: PC, cmd: Cmd): seq<Thread>
    requires t < |ths|
  {
    ths[t := ths[t].(pc := pc)] + if cmd.Spawn? then [Acting(cmd.job, InitialPc(cmd.job))] else []
  }

  /** One step of thread t. */
  lemma Steps(c: Config, p: Miss, r: Run, slot: Slot, ths: seq<Thread>, t: Tid, ch: Choice, pc: PC, cmd: Cmd)
    returns (r': Run)
    requires Scene(c, p, r, slot, ths) && t < |ths| && ths[t].key == "k" && !ths[t].pc.Cool?
    requires Goes(c, ths[t].job, ths[t].pc, Sight(slot, ths, t), ch, pc, cmd)
    ensures Scene(c, p, r', Effect(slot, 0, t, cmd), Moved(ths, t, pc, cmd))
  {
    hide Local;
    r' := Then(r, Step(t, ch), Move(World(slot, ths), t, pc, cmd));
    assert r'.state == World(Effect(slot, 0, t, cmd), Moved(ths, t, pc, cmd));
  }

  /** The steps of a call that fills an absent key which this process has never written. */
  lemma Filling(c: Config, p: Miss, v: View)
    requires v.main.None? && v.last.None?
    ensures var job := CallWith(p);
            && Goes(c, job, Look, v, Ok, Dedup, Nop)
            && Goes(c, job, Dedup, v, Ok, Dispatch, Nop)
            && (p.Sync? ==> Goes(c, job, Dispatch, v, Ok, LockWait, Nop))
            && (p.Async? ==> Goes(c, job, Dispatch, v, Ok, FreeReady, Nop))
            && (p.StaleOrSync? ==> Goes(c, job, Dispatch, v, Ok, StaleGet, Nop))
            && (p.Cooperative? ==>
                  if c.lang.Python? then Goes(c, job, Dispatch, v, Ok, CoopWait(None), Nop)
                  else Goes(c, job, Dispatch, v, Ok, CoopWait(Some(v.child)), Spawn(Helper)))
  {
  }

  lemma Waiting(c: Config, p: Miss, v: View, h: Option<Tid>)
    ensures var job := CallWith(p);
            && (v.free && c.lang.Python? ==> Goes(c, job, CoopWait(h), v, Ok, Check, Acquire))
            && (v.signalled && c.lang.Go? ==> Goes(c, job, CoopWait(h), v, Ok, LockWait, Nop))
            && Goes(c, job, CoopWait(h), v, Timeout, FreeReady, Nop)
            && (v.free ==> Goes(c, job, LockWait, v, Ok, Check, Acquire))
            && (v.main.None? ==> Goes(c, job, Check, v, Ok, GenReady, Nop))
            && Goes(c, job, GenReady, v, Ok, Gen, Nop)
            && Goes(c, job, FreeReady, v, Ok, FreeGen, Nop)
  {
  }

  lemma Helping(c: Config, v: View)
    ensures v.free ==> Goes(c, Helper, LockWait, v, Ok, Signal, Acquire)
    ensures Goes(c, Helper, Signal, v, Ok, Unlock(Quiet), Nop)
    ensures Goes(c, Helper, Unlock(Quiet), v, Ok, Done(Quiet), Release)
  {
  }

  /** The helper of a cooperative Go call that arrives as thread t. */
  function HelpersOf(c: Config, p: Miss): seq<Thread> {
    if c.lang.Go? && p.Cooperative? then [Acting(Helper, LockWait)] else []
  }

  /** The program point of a call of policy p behind `Dispatch`. */
  function Entered(c: Config, p: Miss, ths: seq<Thread>): PC {
    match p
    case Async => FreeReady
    case StaleOrSync => StaleGet
    case Cooperative => CoopWait(if c.lang.Go? then Some(|ths| + 1) else None)
    case _ => LockWait
  }

  /** A call of an absent key, from its arrival into its fill policy. */
  lemma Enters(c: Config, p: Miss, r: Run, slot: Slot, ths: seq<Thread>) returns (r': Run)
    requires Scene(c, p, r, slot, ths) && slot.main.None? && slot.last.None?
    requires !p.FailFast?
    ensures Scene(c, p, r', slot, ths + [Acting(CallWith(p), Entered(c, p, ths))] + HelpersOf(c, p))
  {
    hide Goes;
    hide Scene;
    var job, t := CallWith(p), |ths|;
    var a, b := ths + [Acting(job, Look)], ths + [Acting(job, Dedup)];
    var d, e := ths + [Acting(job, Dispatch)], ths + [Acting(job, Entered(c, p, ths))];
    r' := Arrives(c, p, r, slot, ths, job);
    Filling(c, p, Sight(slot, a, t));
    r' := Steps(c, p, r', slot, a, t, Ok, Dedup, Nop);
    assert Moved(a, t, Dedup, Nop) == b;
    Filling(c, p, Sight(slot, b, t));
    r' := Steps(c, p, r', slot, b, t, Ok, Dispatch, Nop);
    assert Moved(b, t, Dispatch, Nop) == d;
    Filling(c, p, Sight(slot, d, t));
    var cmd := if HelpersOf(c, p) == [] then Nop else Spawn(Helper);
    r' := Steps(c, p, r', slot, d, t, Ok, Entered(c, p, ths), cmd);
    assert Moved(d, t, Entered(c, p, ths), cmd) == e + HelpersOf(c, p);
  }

  const HELD := EMPTY_SLOT.(holder := Some(0))

  /** The first caller has the lock and an absent key: on to its generator. */
  lemma Generates(c: Config, p: Miss, r: Run, rest: seq<Thread>) returns (r': Run)
    requires Scene(c, p, r, HELD, [Acting(CallWith(p), Check)] + rest)
    ensures Scene(c, p, r', HELD, [Acting(CallWith(p), Gen)] + rest)
  {
    hide Goes;
    hide Scene;
    var job := CallWith(p);
    var a, b := [Acting(job, Check)] + rest, [Acting(job, GenReady)] + rest;
    Waiting(c, p, Sight(HELD, a, 0), None);
    r' := Steps(c, p, r, HELD, a, 0, Ok, GenReady, Nop);
    assert Moved(a, 0, GenReady, Nop) == b;
    Waiting(c, p, Sight(HELD, b, 0), None);
    r' := Steps(c, p, r', HELD, b, 0, Ok, Gen, Nop);
    assert Moved(b, 0, Gen, Nop) == [Acting(job, Gen)] + rest;
  }

  /** The first caller goes for the free lock. */
  lemma Locks(c: Config, p: Miss, r: Run, pc: PC, rest: seq<Thread>) returns (r': Run)
    requires Scene(c, p, r, EMPTY_SLOT, [Acting(CallWith(p), pc)] + rest)
    requires pc.LockWait? || (pc == CoopWait(None) && c.lang.Python?)
    ensures Scene(c, p, r', HELD, [Acting(CallWith(p), Check)] + rest)
  {
    hide Goes;
    hide Scene;
    var a := [Acting(CallWith(p), pc)] + rest;
    Waiting(c, p, Sight(EMPTY_SLOT, a, 0), None);
    r' := Steps(c, p, r, EMPTY_SLOT, a, 0, Ok, Check, Acquire);
    assert Moved(a, 0, Check, Acquire) == [Acting(CallWith(p), Check)] + rest;
  }

  /** In Go the first cooperative caller waits until its helper has had the lock and given it back. */
  lemma Signals(c: Config, r: Run) returns (r': Run)
    requires c.lang.Go?
    requires Scene(c, Cooperative, r, EMPTY_SLOT,
                   [Acting(CallWith(Cooperative), CoopWait(Some(1))), Acting(Helper, LockWait)])
    ensures Scene(c, Cooperative, r', EMPTY_SLOT,
                  [Acting(CallWith(Cooperative), LockWait), Acting(Helper, Done(Quiet))])
  {
    hide Goes;
    hide Scene;
    var caller, busy := Acting(CallWith(Cooperative), CoopWait(Some(1))), EMPTY_SLOT.(holder := Some(1));
    Helping(c, Sight(EMPTY_SLOT, [caller, Acting(Helper, LockWait)], 1));
    r' := Steps(c, Cooperative, r, EMPTY_SLOT, [caller, Acting(Helper, LockWait)], 1, Ok, Signal, Acquire);
    assert Moved([caller, Acting(Helper, LockWait)], 1, Signal, Acquire) == [caller, Acting(Helper, Signal)];
    Helping(c, Sight(busy, [caller, Acting(Helper, Signal)], 1));
    r' := Steps(c, Cooperative, r', busy, [caller, Acting(Helper, Signal)], 1, Ok, Unlock(Quiet), Nop);
    assert Moved([caller, Acting(Helper, Signal)], 1, Unlock(Quiet), Nop) == [caller, Acting(Helper, Unlock(Quiet))];
    Helping(c, Sight(busy, [caller, Acting(Helper, Unlock(Quiet))], 1));
    r' := Steps(c, Cooperative, r', busy, [caller, Acting(Helper, Unlock(Quiet))], 1, Ok, Done(Quiet), Release);
    var both := [caller, Acting(Helper, Done(Quiet))];
    assert Moved([caller, Acting(Helper, Unlock(Quiet))], 1, Done(Quiet), Release) == both;
    Waiting(c, Cooperative, Sight(EMPTY_SLOT, both, 0), Some(1));
    r' := Steps(c, Cooperative, r', EMPTY_SLOT, both, 0, Ok, LockWait, Nop);
    assert Moved(both, 0, LockWait, Nop) == [Acting(CallWith(Cooperative), LockWait), Acting(Helper, Done(Quiet))];
  }

  /** A helper that has done its work. */
  function HelperDone(c: Config, p: Miss): seq<Thread> {
    if c.lang.Go? && p.Cooperative? then [Acting(Helper, Done(Quiet))] else []
  }

  /** The first call of an absent key, up to its generator under the lock. */
  lemma ToGenerator(c: Config, p: Miss) returns (r: Run)
    requires p.Sync? || p.Cooperative?
    ensures Scene(c, p, r, HELD, [Acting(CallWith(p), Gen)] + HelperDone(c, p))
  {
    hide Scene;
    r := Opening(c, p, EMPTY_SLOT);
    r := Enters(c, p, r, EMPTY_SLOT, []);
    var caller := Acting(CallWith(p), Entered(c, p, []));
    assert [] + [caller] + HelpersOf(c, p) == [caller] + HelpersOf(c, p);
    if c.lang.Go? && p.Cooperative? {
      assert [caller] + HelpersOf(c, p) == [Acting(CallWith(p), CoopWait(Some(1))), Acting(Helper, LockWait)];
      r := Signals(c, r);
      assert [Acting(CallWith(p), LockWait)] + HelperDone(c, p)
          == [Acting(CallWith(p), LockWait), Acting(Helper, Done(Quiet))];
      r := Locks(c, p, r, LockWait, HelperDone(c, p));
    } else {
      r := Locks(c, p, r, caller.pc, []);
    }
    r := Generates(c, p, r, HelperDone(c, p));
  }
}
