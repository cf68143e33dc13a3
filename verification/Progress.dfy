/** Deadlock freedom and termination: every run of finitely many calls can only take finitely many
    thread steps, and when no thread can move, every call has returned and every lock is free. */
module Progress {
  import opened Vocabulary
  import opened Protocol
  import opened Locking

  // ---------------------------------------------------------------------------------------------
  // Sums over the threads
  // ---------------------------------------------------------------------------------------------

  function Sum(ts: seq<Thread>, f: Thread -> nat): nat {
    if ts == [] then 0 else Sum(ts[..|ts| - 1], f) + f(ts[|ts| - 1])
  }

  lemma {:induction false} SumAppend(ts: seq<Thread>, x: Thread, f: Thread -> nat)
    ensures Sum(ts + [x], f) == Sum(ts, f) + f(x)
  {
    assert (ts + [x])[..|ts|] == ts;
  }

  lemma {:induction false} SumUpdate(ts: seq<Thread>, i: nat, x: Thread, f: Thread -> nat)
    requires i < |ts|
    ensures Sum(ts[i := x], f) + f(ts[i]) == Sum(ts, f) + f(x)
  {
    var n := |ts| - 1;
    if i == n {
      assert ts[i := x][..n] == ts[..n];
    } else {
      assert ts[i := x][..n] == ts[..n][i := x];
      SumUpdate(ts[..n], i, x, f);
    }
  }

  lemma MoveSum(s: State, t: Tid, pc': PC, cmd: Cmd, f: Thread -> nat)
    requires t < |s.threads|
    ensures Sum(Move(s, t, pc', cmd).threads, f) + f(s.threads[t])
              == Sum(s.threads, f) + f(Advance(s.threads[t], pc', s.now))
                 + (if cmd.Spawn? then f(Thread(s.threads[t].key, cmd.job, InitialPc(cmd.job), 0)) else 0)
  {
    SumUpdate(s.threads, t, Advance(s.threads[t], pc', s.now), f);
    if cmd.Spawn? {
      SumAppend(s.threads[t := Advance(s.threads[t], pc', s.now)],
                Thread(s.threads[t].key, cmd.job, InitialPc(cmd.job), 0), f);
    }
  }

  // ---------------------------------------------------------------------------------------------
  // Termination
  // ---------------------------------------------------------------------------------------------

  /** An upper bound on the steps a thread may still take, including those of workers it may spawn. */
  function Weight(th: Thread): nat {
    match th.pc
    case Done(_) => 0
    case Stamp(_) => 1
    case Drop => 1
    case Unlock(_) => 2
    case Signal => 3
    case Record(_) => if th.job.StaleRefresh? then 4 else 3
    case PutShadow(_) => if th.job.StaleRefresh? then 3 else 4
    case Put(_) => 5
    case Gen => 6
    case GenReady => 7
    case Check => 8
    case Cool => 8
    case TryLock => 9
    case LockWait => 9
    case Gate(_) => 10
    case Trigger(_) => 11
    case Handoff(_) => 11
    case FreeGen => 12
    case FreeReady => 13
    case CoopWait(_) => 14
    case StaleGet => 15
    case Dispatch => 24
    case Reread => 25
    case Dedup => 26
    case Look => 27
  }

  const MAX_STEPS_PER_CALL: nat := 27

  /** The step is paid for: what is left to do for the thread and the worker it spawns weighs less. */
  predicate WeightLaw(th: Thread, pc': PC, cmd: Cmd, now: Time) {
    Weight(Advance(th, pc', now))
      + (if cmd.Spawn? then Weight(Thread(th.key, cmd.job, InitialPc(cmd.job), 0)) else 0)
    < Weight(th)
  }

  lemma CallWeight(c: Config, th: Thread, v: View, ch: Choice, now: Time)
    requires th.job.Call? && Shape(c, th.job, th.pc) && Can(c, th.pc, v, ch)
    ensures var (pc', cmd) := Local(c, th.job, th.pc, v, ch); WeightLaw(th, pc', cmd, now)
  {
  }

  lemma OtherWeight(c: Config, th: Thread, v: View, ch: Choice, now: Time)
    requires !th.job.Call? && Shape(c, th.job, th.pc) && Can(c, th.pc, v, ch)
    ensures var (pc', cmd) := Local(c, th.job, th.pc, v, ch); WeightLaw(th, pc', cmd, now)
  {
  }

  lemma LocalWeight(c: Config, th: Thread, v: View, ch: Choice, now: Time)
    requires Shape(c, th.job, th.pc) && Can(c, th.pc, v, ch)
    ensures var (pc', cmd) := Local(c, th.job, th.pc, v, ch); WeightLaw(th, pc', cmd, now)
  {
    hide Local;
    hide Shape;
    hide Can;
    hide WeightLaw;
    if th.job.Call? {
      CallWeight(c, th, v, ch, now);
    } else {
      OtherWeight(c, th, v, ch, now);
    }
  }

  function Measure(s: State): nat {
    Sum(s.threads, Weight)
  }

  lemma {:induction false} StepDecreases(c: Config, s: State, e: Event)
    requires Good(c, s) && Enabled(c, s, e)
    ensures e.Step? ==> Measure(Apply(c, s, e)) < Measure(s)
    ensures e.Begin? ==> Measure(Apply(c, s, e)) <= Measure(s) + MAX_STEPS_PER_CALL
    ensures !e.Step? && !e.Begin? ==> Measure(Apply(c, s, e)) == Measure(s)
  {
    match e
    case Step(t, ch) =>
      LocalWeight(c, s.threads[t], ViewOf(s, t), ch, s.now);
      var (pc', cmd) := Act(c, s, t, ch);
      MoveSum(s, t, pc', cmd, Weight);
    case Begin(k, job) =>
      SumAppend(s.threads, Thread(k, job, InitialPc(job), 0), Weight);
    case _ =>
  }

  function StepCount(r: Run): nat {
    match r case Start(_) => 0 case Then(p, e, _) => StepCount(p) + if e.Step? then 1 else 0
  }

  function CallCount(r: Run): nat {
    match r case Start(_) => 0 case Then(p, e, _) => CallCount(p) + if e.Begin? then 1 else 0
  }

  /** Termination.  Whatever the interleaving, n calls (with all the workers they spawn) take at most
      27 n steps. */
  lemma {:induction false} StepsAreBounded(c: Config, r: Run)
    requires IsRun(c, r)
    ensures StepCount(r) + Measure(Last(r)) <= MAX_STEPS_PER_CALL * CallCount(r)
  {
    match r
    case Start(_) =>
    case Then(p, e, s) =>
      StepsAreBounded(c, p);
      RunGood(c, p);
      StepDecreases(c, Last(p), e);
  }

  // ---------------------------------------------------------------------------------------------
  // Deadlock freedom
  // ---------------------------------------------------------------------------------------------

  /** A choice that involves no failure, no time-out and no skipped trigger. */
  function Smooth(pc: PC): Choice {
    if pc.Gen? || pc.FreeGen? then Yield("") else Ok
  }

  predicate AllReturned(s: State) {
    forall t | 0 <= t < |s.threads| :: s.threads[t].pc.Done?
  }

  /** The holder of a lock can always move. */
  lemma HolderMoves(c: Config, s: State, t: Tid)
    requires Good(c, s) && t < |s.threads| && Holds(s.threads[t].job, s.threads[t].pc)
    ensures Enabled(c, s, Step(t, Smooth(s.threads[t].pc)))
  {
  }

  /** Deadlock freedom.  While some call is unfinished, some thread can take a step that is not a
      time-out and not a failure. */
  lemma SomeoneMoves(c: Config, s: State, t: Tid) returns (u: Tid)
    requires Good(c, s) && t < |s.threads| && !s.threads[t].pc.Done?
    ensures u < |s.threads| && Enabled(c, s, Step(u, Smooth(s.threads[u].pc)))
  {
    var pc, slot := s.threads[t].pc, At(s, s.threads[t].key);
    u := t;
    if pc.CoopWait? && c.lang.Go? {
      assert Shape(c, s.threads[t].job, pc);
      var h := pc.helper.value;
      assert Shape(c, s.threads[h].job, s.threads[h].pc);
      if !Signalled(s, pc) {
        u := h;
        if s.threads[h].pc.LockWait? && slot.holder.Some? {
          u := slot.holder.value;
          HolderMoves(c, s, u);
        }
      }
    } else if (pc.LockWait? || pc.CoopWait?) && slot.holder.Some? {
      u := slot.holder.value;
      HolderMoves(c, s, u);
    }
  }

  /** When every thread has returned, every lock is free. */
  lemma ReturnedMeansUnlocked(c: Config, s: State, k: Key)
    requires Good(c, s) && AllReturned(s)
    ensures At(s, k).holder.None?
  {
  }

  /** r' continues r by thread steps none of which fails or times out. */
  ghost predicate Smoothly(r: Run, r': Run) {
    r' == r ||
    (r'.Then? && r'.event.Step? && r'.event.tid < |Last(r'.prev).threads|
     && r'.event.choice == Smooth(Last(r'.prev).threads[r'.event.tid].pc) && Smoothly(r, r'.prev))
  }

  lemma {:induction false} SmoothlyTrans(r: Run, mid: Run, r': Run)
    requires Smoothly(r, mid) && Smoothly(mid, r')
    ensures Smoothly(r, r')
  {
    if r' != mid { SmoothlyTrans(r, mid, r'.prev); }
  }

  /** Completion.  From every reachable state thread steps alone, with no time-out and no failure, lead
      to a state in which every call has returned and every key lock is free. */
  lemma {:induction false} RunsComplete(c: Config, r: Run) returns (r': Run)
    requires IsRun(c, r)
    ensures IsRun(c, r') && Smoothly(r, r')
    ensures AllReturned(Last(r'))
    ensures forall k :: At(Last(r'), k).holder.None?
    decreases Measure(Last(r))
  {
    var s := Last(r);
    RunGood(c, r);
    if t :| 0 <= t < |s.threads| && !s.threads[t].pc.Done? {
      var u := SomeoneMoves(c, s, t);
      var e := Step(u, Smooth(s.threads[u].pc));
      StepDecreases(c, s, e);
      var next := Then(r, e, Apply(c, s, e));
      r' := RunsComplete(c, next);
      assert Smoothly(r, next);
      SmoothlyTrans(r, next, r');
    } else {
      r' := r;
      forall k ensures At(s, k).holder.None? { ReturnedMeansUnlocked(c, s, k); }
    }
  }
}
