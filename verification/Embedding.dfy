/** The undisturbed job is a run of the step machine: what the handler methods are proved to compute is
    what a thread of the protocol does when the scheduler lets it run as far as it can. */
module Embedding {
  import opened Vocabulary
  import opened Protocol
  import opened Locking
  import opened Progress
  import opened Undisturbed

  /** A slot as an undisturbed job sees it: it only matters whether the lock is taken. */
  function Anonymous(slot: Slot): Slot {
    slot.(holder := if slot.holder.Some? then Some(0) else None)
  }

  /** The tasks of threads that have not finished, in the order in which they were spawned. */
  function Spawned(ths: seq<Thread>): seq<Task> {
    if ths == [] then []
    else Spawned(ths[..|ths| - 1])
           + if ths[|ths| - 1].pc.Done? then [] else [Task(ths[|ths| - 1].key, ths[|ths| - 1].job)]
  }

  lemma {:induction false} SpawnedAppend(a: seq<Thread>, b: seq<Thread>)
    ensures Spawned(a + b) == Spawned(a) + Spawned(b)
  {
    if b == [] {
      assert a + b == a;
    } else {
      assert (a + b)[..|a + b| - 1] == a + b[..|b| - 1];
      SpawnedAppend(a, b[..|b| - 1]);
    }
  }

  lemma SpawnedOne(th: Thread)
    ensures Spawned([th]) == if th.pc.Done? then [] else [Task(th.key, th.job)]
  {
    assert [th][..0] == [];
  }

  /** r' continues r by thread steps. */
  ghost predicate Continues(r: Run, r': Run) {
    r' == r || (r'.Then? && r'.event.Step? && Continues(r, r'.prev))
  }

  lemma {:induction false} ContinuesTrans(r: Run, mid: Run, r': Run)
    requires Continues(r, mid) && Continues(mid, r')
    ensures Continues(r, r')
  {
    if r' != mid { ContinuesTrans(r, mid, r'.prev); }
  }

  /** A worker that is still to start, or a helper that has come and gone. */
  predicate Untouched(key: Key, th: Thread) {
    th.key == key && (th.pc.Done? || th.pc == InitialPc(th.job))
  }

  /** From s to s' only thread t has been at work, at one instant. */
  ghost predicate Beside(s: State, s': State, t: Tid) {
    && s'.now == s.now
    && t < |s.threads| <= |s'.threads|
    && s'.threads[t].key == s.threads[t].key && s'.threads[t].job == s.threads[t].job
    && (forall u | 0 <= u < |s.threads| && u != t :: s'.threads[u] == s.threads[u])
    && (forall u | |s.threads| <= u < |s'.threads| :: Untouched(s.threads[t].key, s'.threads[u]))
  }

  lemma BesideTrans(s: State, m: State, s': State, t: Tid)
    requires Beside(s, m, t) && Beside(m, s', t)
    ensures Beside(s, s', t)
  {
    forall u | |s.threads| <= u < |s'.threads| ensures Untouched(s.threads[t].key, s'.threads[u]) {
      if u < |m.threads| { assert s'.threads[u] == m.threads[u]; }
    }
  }

  /** r' continues r by the work of thread t, which has added the new threads, whose tasks are those by
      which tasks' exceeds tasks. */
  ghost predicate Advanced(c: Config, r: Run, r': Run, t: Tid, tasks: seq<Task>, tasks': seq<Task>) {
    && IsRun(c, r') && Continues(r, r') && Beside(Last(r), Last(r'), t)
    && tasks' == tasks + Spawned(Last(r').threads[|Last(r).threads|..])
  }

  lemma SpawnedTrans(s: State, m: State, s': State, t: Tid)
    requires Beside(s, m, t) && Beside(m, s', t)
    ensures Spawned(s'.threads[|s.threads|..])
              == Spawned(m.threads[|s.threads|..]) + Spawned(s'.threads[|m.threads|..])
  {
    hide Spawned;
    var i, j := |s.threads|, |m.threads|;
    assert s'.threads[i..j] == m.threads[i..];
    assert s'.threads[i..] == s'.threads[i..j] + s'.threads[j..];
    SpawnedAppend(s'.threads[i..j], s'.threads[j..]);
  }

  lemma AdvancedTrans(c: Config, r: Run, mid: Run, r': Run, t: Tid, a: seq<Task>, b: seq<Task>, d: seq<Task>)
    requires Advanced(c, r, mid, t, a, b) && Advanced(c, mid, r', t, b, d)
    ensures Advanced(c, r, r', t, a, d)
  {
    hide Spawned;
    hide IsRun;
    ContinuesTrans(r, mid, r');
    BesideTrans(Last(r), Last(mid), Last(r'), t);
    SpawnedTrans(Last(r), Last(mid), Last(r'), t);
    hide Beside;
  }

  /** The machine's thread t is where the undisturbed job is. */
  ghost predicate Matches(s: State, t: Tid, pc: PC, slot: Slot) {
    t < |s.threads| && s.threads[t].pc == pc && Anonymous(At(s, s.threads[t].key)) == slot
  }

  /** The run that does one more step. */
  function Grow(c: Config, r: Run, e: Event): (r': Run)
    requires IsRun(c, r) && Enabled(c, Last(r), e) && e.Step?
    ensures IsRun(c, r') && Continues(r, r') && Last(r') == Apply(c, Last(r), e)
  {
    var r' := Then(r, e, Apply(c, Last(r), e));
    assert Continues(r, r);
    r'
  }

  /** The thread is about to start the helper of a cooperative Go call. */
  predicate Cooperates(c: Config, th: Thread) {
    c.lang.Go? && th.pc.Dispatch? && th.job.Call? && th.job.req.miss.Cooperative?
  }

  /** Apart from the helper's number and signal, the thread sees what the undisturbed job sees. */
  lemma SameView(c: Config, s: State, t: Tid, o: Oracle)
    requires t < |s.threads| && (c.lang.Go? ==> !s.threads[t].pc.CoopWait?)
    requires CanAlone(c, s.threads[t].job, s.threads[t].pc, Anonymous(At(s, s.threads[t].key)), s.now, o)
    requires !Cooperates(c, s.threads[t])
    ensures var th := s.threads[t];
            var slot := Anonymous(At(s, th.key));
            var ch := ChoiceOf(c, o, th.job, th.pc, ViewAlone(slot, s.now));
            Enabled(c, s, Step(t, ch)) &&
            Act(c, s, t, ch) == SoloAct(c, th.job, th.pc, slot, s.now, o) &&
            (Act(c, s, t, ch).1.Spawn? ==> !Act(c, s, t, ch).1.job.Helper?)
  {
  }

  lemma AnonymousEffect(slot: Slot, now: Time, t: Tid, cmd: Cmd)
    ensures Anonymous(Effect(slot, now, t, cmd)) == Effect(Anonymous(slot), now, 0, cmd)
  {
  }

  /** A move of thread t, as an advance. */
  lemma MoveAdvances(c: Config, r: Run, t: Tid, ch: Choice, pc: PC, cmd: Cmd, tasks: seq<Task>) returns (r': Run)
    requires IsRun(c, r) && Enabled(c, Last(r), Step(t, ch)) && Act(c, Last(r), t, ch) == (pc, cmd)
    requires cmd.Spawn? ==> !InitialPc(cmd.job).Done?
    ensures Last(r') == Move(Last(r), t, pc, cmd)
    ensures Advanced(c, r, r', t, tasks, tasks + if cmd.Spawn? then [Task(Last(r).threads[t].key, cmd.job)] else [])
  {
    hide Local;
    hide IsRun;
    r' := Grow(c, r, Step(t, ch));
    MoveFrame(Last(r), t, pc, cmd);
    var more := Last(r').threads[|Last(r).threads|..];
    if cmd.Spawn? {
      var child := Thread(Last(r).threads[t].key, cmd.job, InitialPc(cmd.job), 0);
      SpawnedOne(child);
      assert more == [child];
    } else {
      assert more == [];
    }
  }

  /** An ordinary step: the thread and the undisturbed job move together. */
  lemma OrdinaryStep(c: Config, r: Run, t: Tid, o: Oracle, tasks: seq<Task>)
    returns (r': Run, pc': PC, slot': Slot, tasks': seq<Task>)
    requires IsRun(c, r) && t < |Last(r).threads| && (c.lang.Go? ==> !Last(r).threads[t].pc.CoopWait?)
    requires var th := Last(r).threads[t];
             CanAlone(c, th.job, th.pc, Anonymous(At(Last(r), th.key)), Last(r).now, o)
             && !Cooperates(c, th) && Shape(c, th.job, th.pc)
    ensures Advanced(c, r, r', t, tasks, tasks') && Matches(Last(r'), t, pc', slot')
    ensures var th, s := Last(r).threads[t], Last(r);
            Shape(c, th.job, pc') && (c.lang.Go? ==> !pc'.CoopWait?) &&
            Weight(Thread(th.key, th.job, pc', 0)) < Weight(Thread(th.key, th.job, th.pc, 0)) &&
            Solo(c, th.key, th.job, th.pc, Anonymous(At(s, th.key)), s.now, o, tasks)
              == Solo(c, th.key, th.job, pc', slot', s.now, o, tasks')
  {
    hide Solo;
    var s, th := Last(r), Last(r).threads[t];
    var slot := Anonymous(At(s, th.key));
    var ch := ChoiceOf(c, o, th.job, th.pc, ViewAlone(slot, s.now));
    SameView(c, s, t, o);
    SoloStep(c, th.key, th.job, th.pc, slot, s.now, o, tasks);
    LocalWeight(c, Thread(th.key, th.job, th.pc, 0), ViewAlone(slot, s.now), ch, 0);
    NoCooperation(c, th, ViewAlone(slot, s.now), ch);
    hide Local;
    hide Shape;
    var act := SoloAct(c, th.job, th.pc, slot, s.now, o);
    var cmd := act.1;
    pc' := act.0;
    AnonymousEffect(At(s, th.key), s.now, t, cmd);
    MoveFrame(s, t, pc', cmd);
    r' := MoveAdvances(c, r, t, ch, pc', cmd, tasks);
    slot', tasks' := Effect(slot, s.now, 0, cmd), Queued(tasks, th.key, slot, cmd);
  }

  /** Only a cooperative Go call starts a helper and waits for it. */
  lemma NoCooperation(c: Config, th: Thread, v: View, ch: Choice)
    requires Can(c, th.pc, v, ch) && !Cooperates(c, th) && Shape(c, th.job, th.pc)
    ensures c.lang.Go? && !th.pc.CoopWait? ==> !Local(c, th.job, th.pc, v, ch).0.CoopWait?
    ensures var cmd := Local(c, th.job, th.pc, v, ch).1; cmd.Spawn? ==> !InitialPc(cmd.job).Done?
  {
  }

  // ---------------------------------------------------------------------------------------------
  // The cooperative Go call
  // ---------------------------------------------------------------------------------------------

  /** To the undisturbed job, the helper is an immediate signal if the lock is free, and a time-out if it
      is taken. */
  lemma CooperativeSolo(c: Config, key: Key, r: Request, slot: Slot, now: Time, o: Oracle, tasks: seq<Task>)
    requires c.lang.Go? && r.miss.Cooperative? && Shape(c, Call(r), Dispatch)
    ensures var pc := if slot.holder.None? then LockWait else FreeReady;
            var tasks' := if slot.holder.None? then tasks else tasks + [Task(key, Helper)];
            Shape(c, Call(r), pc) &&
            Solo(c, key, Call(r), Dispatch, slot, now, o, tasks) == Solo(c, key, Call(r), pc, slot, now, o, tasks')
  {
    hide Solo;
    SoloStep(c, key, Call(r), Dispatch, slot, now, o, tasks);
    SoloStep(c, key, Call(r), CoopWait(Some(0)), slot, now, o, Queued(tasks, key, slot, Spawn(Helper)));
  }

  /** The caller starts its helper. */
  lemma StartHelper(c: Config, r: Run, t: Tid, tasks: seq<Task>) returns (r': Run)
    requires IsRun(c, r) && t < |Last(r).threads| && Cooperates(c, Last(r).threads[t])
    ensures Advanced(c, r, r', t, tasks, tasks + [Task(Last(r).threads[t].key, Helper)])
    ensures |Last(r').threads| == |Last(r).threads| + 1
    ensures Last(r').threads[t].pc == CoopWait(Some(|Last(r).threads|))
    ensures Last(r').threads[|Last(r).threads|] == Thread(Last(r).threads[t].key, Helper, LockWait, 0)
    ensures forall k :: At(Last(r'), k) == At(Last(r), k)
  {
    hide IsRun;
    hide Advanced;
    r' := MoveAdvances(c, r, t, Ok, CoopWait(Some(|Last(r).threads|)), Spawn(Helper), tasks);
    MoveFrame(Last(r), t, CoopWait(Some(|Last(r).threads|)), Spawn(Helper));
  }

  /** The caller's wait ends: by the signal of its helper, or by the time-out. */
  lemma EndsWait(c: Config, r: Run, t: Tid, h: Tid, tasks: seq<Task>) returns (r': Run)
    requires c.lang.Go? && IsRun(c, r) && t < |Last(r).threads| && h < |Last(r).threads|
    requires Last(r).threads[t].pc == CoopWait(Some(h)) && Last(r).threads[t].job.Call?
    ensures Advanced(c, r, r', t, tasks, tasks) && |Last(r').threads| == |Last(r).threads|
    ensures Last(r').threads[t].pc == if Last(r).threads[h].pc.Done? then LockWait else FreeReady
    ensures forall k :: At(Last(r'), k) == At(Last(r), k)
  {
    var signalled := Last(r).threads[h].pc.Done?;
    var pc := if signalled then LockWait else FreeReady;
    r' := MoveAdvances(c, r, t, if signalled then Ok else Timeout, pc, Nop, tasks);
    assert tasks + [] == tasks;
    MoveFrame(Last(r), t, pc, Nop);
  }

  /** One step of a helper whose key nobody else has locked. */
  lemma HelperMoves(c: Config, r: Run, h: Tid, pc: PC, cmd: Cmd) returns (r': Run)
    requires IsRun(c, r) && h < |Last(r).threads| && Last(r).threads[h].job.Helper? && !cmd.Spawn?
    requires Last(r).threads[h].pc.LockWait? ==> At(Last(r), Last(r).threads[h].key).holder.None?
    requires match Last(r).threads[h].pc
             case LockWait => pc.Signal? && cmd.Acquire?
             case Signal => pc == Unlock(Quiet) && cmd.Nop?
             case Unlock(_) => pc == Done(Quiet) && cmd.Release?
             case _ => false
    ensures IsRun(c, r') && Continues(r, r') && Last(r') == Move(Last(r), h, pc, cmd)
  {
    r' := Grow(c, r, Step(h, Ok));
  }

  /** The helper of a cooperative call takes the free lock, signals, and gives the lock back. */
  lemma HelperRuns(c: Config, r: Run, h: Tid) returns (r': Run)
    requires IsRun(c, r) && h < |Last(r).threads|
    requires Last(r).threads[h].job.Helper? && Last(r).threads[h].pc.LockWait?
    requires At(Last(r), Last(r).threads[h].key).holder.None?
    ensures IsRun(c, r') && Continues(r, r') && Last(r').now == Last(r).now
    ensures |Last(r').threads| == |Last(r).threads| && Last(r').threads[h].pc.Done?
    ensures Last(r').threads[h].key == Last(r).threads[h].key
    ensures forall u | 0 <= u < |Last(r).threads| && u != h :: Last(r').threads[u] == Last(r).threads[u]
    ensures forall k :: At(Last(r'), k) == At(Last(r), k)
  {
    hide IsRun;
    var a := HelperMoves(c, r, h, Signal, Acquire);
    MoveFrame(Last(r), h, Signal, Acquire);
    var b := HelperMoves(c, a, h, Unlock(Quiet), Nop);
    MoveFrame(Last(a), h, Unlock(Quiet), Nop);
    r' := HelperMoves(c, b, h, Done(Quiet), Release);
    MoveFrame(Last(b), h, Done(Quiet), Release);
    ContinuesTrans(r, a, b);
    ContinuesTrans(r, b, r');
  }

  /** A cooperative Go call starts its helper and ends its wait: behind the helper if the lock is free, by
      the time-out if it is taken, and then the helper is left waiting. */
  lemma CooperativeSteps(c: Config, r: Run, t: Tid, o: Oracle, tasks: seq<Task>)
    returns (r': Run, pc': PC, tasks': seq<Task>)
    requires IsRun(c, r) && t < |Last(r).threads| && Cooperates(c, Last(r).threads[t])
    requires Shape(c, Last(r).threads[t].job, Last(r).threads[t].pc)
    ensures var th, slot := Last(r).threads[t], Anonymous(At(Last(r), Last(r).threads[t].key));
            Advanced(c, r, r', t, tasks, tasks') && Matches(Last(r'), t, pc', slot) &&
            Shape(c, th.job, pc') && !pc'.CoopWait? &&
            Weight(Thread(th.key, th.job, pc', 0)) < Weight(Thread(th.key, th.job, th.pc, 0)) &&
            Solo(c, th.key, th.job, th.pc, slot, Last(r).now, o, tasks)
              == Solo(c, th.key, th.job, pc', slot, Last(r).now, o, tasks')
  {
    hide Solo;
    hide IsRun;
    hide Shape;
    var s, th, h := Last(r), Last(r).threads[t], |Last(r).threads|;
    var slot := Anonymous(At(s, th.key));
    CooperativeSolo(c, th.key, th.job.req, slot, s.now, o, tasks);
    var started := StartHelper(c, r, t, tasks);
    if slot.holder.None? {
      var signalled := HelperRuns(c, started, h);
      pc', tasks' := LockWait, tasks;
      HelperGone(c, r, started, signalled, t, tasks);
      r' := EndsWait(c, signalled, t, h, tasks);
      AdvancedTrans(c, r, signalled, r', t, tasks, tasks, tasks);
    } else {
      pc', tasks' := FreeReady, tasks + [Task(th.key, Helper)];
      r' := EndsWait(c, started, t, h, tasks');
      AdvancedTrans(c, r, started, r', t, tasks, tasks', tasks');
    }
  }

  /** A helper that has come and gone leaves no task. */
  lemma HelperGone(c: Config, r: Run, started: Run, gone: Run, t: Tid, tasks: seq<Task>)
    requires t < |Last(r).threads|
    requires Advanced(c, r, started, t, tasks, tasks + [Task(Last(r).threads[t].key, Helper)])
    requires IsRun(c, gone) && Continues(started, gone) && Last(gone).now == Last(started).now
    requires |Last(gone).threads| == |Last(started).threads| == |Last(r).threads| + 1
    requires Last(gone).threads[|Last(r).threads|].pc.Done?
    requires Last(gone).threads[|Last(r).threads|].key == Last(started).threads[|Last(r).threads|].key
    requires forall u | 0 <= u < |Last(r).threads| :: Last(gone).threads[u] == Last(started).threads[u]
    ensures Advanced(c, r, gone, t, tasks, tasks)
  {
    hide IsRun;
    ContinuesTrans(r, started, gone);
    var helper := Last(gone).threads[|Last(r).threads|];
    assert Last(gone).threads[|Last(r).threads|..] == [helper];
    SpawnedOne(helper);
    assert tasks + [] == tasks;
  }

  // ---------------------------------------------------------------------------------------------
  // Embedding
  // ---------------------------------------------------------------------------------------------

  /** Where the machine's thread is when the undisturbed job has got as far as `alone` says. */
  function Stopped(alone: Alone): PC {
    if alone.out.Some? then Done(alone.out.value) else LockWait
  }

  /** Embedding.  Any thread can be run by the machine until it returns or has to wait for a lock that
      another thread holds.  Then it has returned, or waits, and has left its key and the workers it has
      spawned, none of them started, exactly as the undisturbed job does; all other threads are where they
      were. */
  lemma {:induction false} SoloIsRun(c: Config, r: Run, t: Tid, o: Oracle, tasks: seq<Task>) returns (r': Run)
    requires IsRun(c, r) && t < |Last(r).threads|
    requires c.lang.Go? ==> !Last(r).threads[t].pc.CoopWait?
    requires Shape(c, Last(r).threads[t].job, Last(r).threads[t].pc)
    ensures var th, s := Last(r).threads[t], Last(r);
            var alone := Solo(c, th.key, th.job, th.pc, Anonymous(At(s, th.key)), s.now, o, tasks);
            Advanced(c, r, r', t, tasks, alone.tasks) && Matches(Last(r'), t, Stopped(alone), alone.slot)
    decreases Weight(Thread(Last(r).threads[t].key, Last(r).threads[t].job, Last(r).threads[t].pc, 0))
  {
    var s, th := Last(r), Last(r).threads[t];
    var slot := Anonymous(At(s, th.key));
    if !CanAlone(c, th.job, th.pc, slot, s.now, o) {
      OnlyLocksBlock(c, th, slot, s.now, o);
      r' := r;
      assert s.threads[|s.threads|..] == [] && tasks + [] == tasks;
    } else {
      hide Solo;
      var next, pc', slot', tasks' := r, th.pc, slot, tasks;
      if Cooperates(c, th) {
        next, pc', tasks' := CooperativeSteps(c, r, t, o, tasks);
      } else {
        next, pc', slot', tasks' := OrdinaryStep(c, r, t, o, tasks);
      }
      r' := SoloIsRun(c, next, t, o, tasks');
      var alone := Solo(c, th.key, th.job, th.pc, slot, s.now, o, tasks);
      AdvancedTrans(c, r, next, r', t, tasks, tasks', alone.tasks);
    }
  }

  /** The only thing an undisturbed job can be stopped by is a lock that is taken. */
  lemma OnlyLocksBlock(c: Config, th: Thread, slot: Slot, now: Time, o: Oracle)
    requires !CanAlone(c, th.job, th.pc, slot, now, o)
    ensures th.pc.Done? || (th.pc.LockWait? && slot.holder.Some?)
  {
  }

  /** Nobody but thread t holds the lock of its key. */
  ghost predicate Ready(s: State, t: Tid) {
    t < |s.threads| &&
    (At(s, s.threads[t].key).holder.None? || At(s, s.threads[t].key).holder == Some(t))
  }

  /** A thread that has stopped holds nothing, and neither do the workers it has spawned. */
  lemma NobodyHolds(c: Config, s: State, s': State, t: Tid)
    requires Good(c, s) && Good(c, s') && Ready(s, t) && Beside(s, s', t)
    requires s'.threads[t].pc.Done? || s'.threads[t].pc.LockWait?
    ensures At(s', s'.threads[t].key).holder.None?
  {
    hide Shaped;
    hide Helped;
    var slot := At(s', s'.threads[t].key);
    if slot.holder.Some? {
      var h := slot.holder.value;
      assert Holds(s'.threads[h].job, s'.threads[h].pc);
      assert h < |s.threads| && h != t ==> s'.threads[h] == s.threads[h];
      assert h >= |s.threads| ==> Untouched(s.threads[t].key, s'.threads[h]);
    }
  }

  /** An undisturbed job that has not returned has met a lock that is taken. */
  lemma {:induction false} StoppedAtLock(c: Config, th: Thread, o: Oracle, alone: Alone,
                                           slot: Slot, now: Time, tasks: seq<Task>)
    requires Shape(c, th.job, th.pc) && alone == Solo(c, th.key, th.job, th.pc, slot, now, o, tasks)
    ensures alone.out.None? ==> alone.slot.holder.Some?
    decreases Weight(Thread(th.key, th.job, th.pc, 0))
  {
    if !CanAlone(c, th.job, th.pc, slot, now, o) {
      OnlyLocksBlock(c, th, slot, now, o);
    } else {
      hide Solo;
      SoloStep(c, th.key, th.job, th.pc, slot, now, o, tasks);
      var ch := ChoiceOf(c, o, th.job, th.pc, ViewAlone(slot, now));
      LocalWeight(c, Thread(th.key, th.job, th.pc, 0), ViewAlone(slot, now), ch, 0);
      var (pc', cmd) := SoloAct(c, th.job, th.pc, slot, now, o);
      StoppedAtLock(c, Thread(th.key, th.job, pc', 0), o, alone, Effect(slot, now, 0, cmd), now,
                    Queued(tasks, th.key, slot, cmd));
    }
  }

  /** If nobody else holds the lock of its key, the thread returns, and leaves the key unlocked. */
  lemma SoloReturns(c: Config, r: Run, t: Tid, o: Oracle, tasks: seq<Task>)
    requires IsRun(c, r) && Ready(Last(r), t)
    requires c.lang.Go? ==> !Last(r).threads[t].pc.CoopWait?
    requires Shape(c, Last(r).threads[t].job, Last(r).threads[t].pc)
    ensures var th, s := Last(r).threads[t], Last(r);
            var alone := Solo(c, th.key, th.job, th.pc, Anonymous(At(s, th.key)), s.now, o, tasks);
            alone.out.Some? && alone.slot.holder.None?
  {
    hide Solo;
    var s, th := Last(r), Last(r).threads[t];
    var alone := Solo(c, th.key, th.job, th.pc, Anonymous(At(s, th.key)), s.now, o, tasks);
    var r' := SoloIsRun(c, r, t, o, tasks);
    RunGood(c, r);
    RunGood(c, r');
    NobodyHolds(c, s, Last(r'), t);
    StoppedAtLock(c, th, o, alone, Anonymous(At(s, th.key)), s.now, tasks);
  }
}
