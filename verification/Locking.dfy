/** What every reachable state satisfies: each thread is where its program allows it to be, and the key
    lock is held by exactly the threads between acquiring and releasing it. */
module Locking {
  import opened Vocabulary
  import opened Protocol

  // ---------------------------------------------------------------------------------------------
  // The program points of each kind of thread
  // ---------------------------------------------------------------------------------------------

  predicate PastDispatch(pc: PC) {
    pc.StaleGet? || pc.CoopWait? || pc.LockWait? || pc.Check? || pc.GenReady? || pc.Gen? || pc.Put?
    || pc.PutShadow? || pc.Record? || pc.FreeReady? || pc.FreeGen? || pc.Handoff?
  }

  predicate CallShape(c: Config, r: Request, pc: PC) {
    && (c.lang.Go? ==> r.gen.Some?)
    && (pc.Gate? || PastDispatch(pc) ==> r.gen.Some?)
    && match pc
       case Look | Trigger(_) | Gate(_) | Dedup | Reread | Dispatch | Done(_) => true
       case StaleGet => r.miss.StaleOrSync?
       case CoopWait(h) => r.miss.Cooperative? && (h.Some? <==> c.lang.Go?)
       case LockWait => r.miss.Sync? || r.miss.StaleOrSync? || (r.miss.Cooperative? && c.lang.Go?)
       case Check | GenReady | Gen | Put(_) | PutShadow(_) | Record(_) => !r.miss.FailFast? && !r.miss.Async?
       case Unlock(out) => (out.Cached? || out.Filled? || out.Failed?) && !r.miss.FailFast? && !r.miss.Async?
       case FreeReady | FreeGen => r.miss.Async? || r.miss.Cooperative?
       case Handoff(_) => r.miss.Async?
       case Stamp(out) => Success(out) && r.hit.Probabilistic? && !r.miss.FailFast?
       case _ => false
  }

  predicate Shape(c: Config, job: Job, pc: PC) {
    match job
    case Call(r) => CallShape(c, r, pc)
    case Assign(v, _) =>
      pc == Put(v) || pc == PutShadow(v) || pc == Record(v) || pc == Done(Quiet) || pc == Done(Failed)
    case Remove => c.lang.Python? && (pc.Drop? || pc == Done(Quiet) || pc == Done(Failed))
    case WriteBack(v, _) =>
      pc.TryLock? || pc.Check? || pc == Put(v) || pc == PutShadow(v) || pc == Record(v)
      || pc == Unlock(Quiet) || pc == Done(Quiet)
    case Refresh(_, g) =>
      g.Some? && (pc.TryLock? || pc.Cool? || pc.GenReady? || pc.Gen? || pc.Put? || pc.PutShadow?
                  || pc.Record? || pc == Unlock(Quiet) || pc == Done(Quiet))
    case StaleRefresh(_, g) =>
      g.Some? && c.lang.Go? && (pc.TryLock? || pc.GenReady? || pc.Gen? || pc.Put? || pc.PutShadow?
                                || pc.Record? || pc == Unlock(Quiet) || pc == Done(Quiet))
    case Helper => c.lang.Go? && (pc.LockWait? || pc.Signal? || pc == Unlock(Quiet) || pc == Done(Quiet))
  }

  predicate Worker(job: Job) {
    job.WriteBack? || job.Refresh? || job.StaleRefresh? || job.Helper?
  }

  lemma LockedShapeKept(c: Config, r: Request, pc: PC, v: View, ch: Choice)
    requires Shape(c, Call(r), pc) && Can(c, pc, v, ch) && Holds(Call(r), pc)
    ensures var (pc', cmd) := Local(c, Call(r), pc, v, ch); Shape(c, Call(r), pc') && !cmd.Spawn?
  {
  }

  lemma FreeShapeKept(c: Config, r: Request, pc: PC, v: View, ch: Choice)
    requires Shape(c, Call(r), pc) && Can(c, pc, v, ch) && !Holds(Call(r), pc)
    ensures var (pc', cmd) := Local(c, Call(r), pc, v, ch);
            Shape(c, Call(r), pc') &&
            (cmd.Spawn? ==> Worker(cmd.job) && Shape(c, cmd.job, InitialPc(cmd.job)))
  {
  }

  lemma OtherShapeKept(c: Config, job: Job, pc: PC, v: View, ch: Choice)
    requires !job.Call? && Shape(c, job, pc) && Can(c, pc, v, ch)
    ensures var (pc', cmd) := Local(c, job, pc, v, ch); Shape(c, job, pc') && !cmd.Spawn?
  {
  }

  /** A step keeps a thread on its program and spawns only workers at their first program point. */
  lemma LocalShape(c: Config, job: Job, pc: PC, v: View, ch: Choice)
    requires Shape(c, job, pc) && Can(c, pc, v, ch)
    ensures var (pc', cmd) := Local(c, job, pc, v, ch);
            Shape(c, job, pc') &&
            (cmd.Spawn? ==> Worker(cmd.job) && Shape(c, cmd.job, InitialPc(cmd.job)))
  {
    hide Local;
    hide Shape;
    hide Can;
    if job.Call? {
      if Holds(job, pc) { LockedShapeKept(c, job.req, pc, v, ch); } else { FreeShapeKept(c, job.req, pc, v, ch); }
    } else {
      OtherShapeKept(c, job, pc, v, ch);
    }
  }

  /** The lock is acquired only when free, and ownership changes only by Acquire and Release. */
  predicate LockLaw(job: Job, pc: PC, v: View, pc': PC, cmd: Cmd) {
    && (cmd.Acquire? ==> v.free && !Holds(job, pc) && Holds(job, pc'))
    && (cmd.Release? ==> Holds(job, pc) && !Holds(job, pc'))
    && (!cmd.Acquire? && !cmd.Release? ==> (Holds(job, pc') <==> Holds(job, pc)))
    && (cmd.Spawn? ==> !Holds(cmd.job, InitialPc(cmd.job)))
    && (pc'.CoopWait? && pc'.helper.Some? ==> pc'.helper.value == v.child && cmd == Spawn(Helper))
    && (pc.CoopWait? ==> !pc'.CoopWait?)
  }

  lemma CallLock(c: Config, r: Request, pc: PC, v: View, ch: Choice)
    requires Shape(c, Call(r), pc) && Can(c, pc, v, ch)
    ensures var (pc', cmd) := Local(c, Call(r), pc, v, ch); LockLaw(Call(r), pc, v, pc', cmd)
  {
  }

  lemma OtherLock(c: Config, job: Job, pc: PC, v: View, ch: Choice)
    requires !job.Call? && Shape(c, job, pc) && Can(c, pc, v, ch)
    ensures var (pc', cmd) := Local(c, job, pc, v, ch); LockLaw(job, pc, v, pc', cmd)
  {
  }

  lemma LocalLock(c: Config, job: Job, pc: PC, v: View, ch: Choice)
    requires Shape(c, job, pc) && Can(c, pc, v, ch)
    ensures var (pc', cmd) := Local(c, job, pc, v, ch); LockLaw(job, pc, v, pc', cmd)
  {
    hide Local;
    hide Shape;
    hide Can;
    hide LockLaw;
    if job.Call? {
      CallLock(c, job.req, pc, v, ch);
    } else {
      OtherLock(c, job, pc, v, ch);
    }
  }

  // ---------------------------------------------------------------------------------------------
  // The invariant
  // ---------------------------------------------------------------------------------------------

  ghost predicate Shaped(c: Config, s: State) {
    forall t | 0 <= t < |s.threads| :: Shape(c, s.threads[t].job, s.threads[t].pc)
  }

  ghost predicate Locked(s: State) {
    && (forall t | 0 <= t < |s.threads| ::
          Holds(s.threads[t].job, s.threads[t].pc) <==> At(s, s.threads[t].key).holder == Some(t))
    && (forall k :: At(s, k).holder.Some? ==>
          At(s, k).holder.value < |s.threads| && s.threads[At(s, k).holder.value].key == k)
  }

  /** A cooperative caller in Go waits for a helper that works on its own key. */
  ghost predicate Helped(s: State) {
    forall t | 0 <= t < |s.threads| && s.threads[t].pc.CoopWait? && s.threads[t].pc.helper.Some? ::
      var h := s.threads[t].pc.helper.value;
      h < |s.threads| && s.threads[h].job.Helper? && s.threads[h].key == s.threads[t].key
  }

  ghost predicate Good(c: Config, s: State) {
    Shaped(c, s) && Locked(s) && Helped(s)
  }

  lemma InitGood(c: Config, s: State)
    requires Init(s)
    ensures Good(c, s)
  {
    forall k ensures At(s, k).holder.None? {
      if k in s.slots { assert s.slots[k].holder.None?; }
    }
  }

  /** What a move leaves alone: other keys, other threads, and of its own thread the key and the job. */
  lemma MoveFrame(s: State, t: Tid, pc': PC, cmd: Cmd)
    requires t < |s.threads|
    ensures var s', k := Move(s, t, pc', cmd), s.threads[t].key;
            && s'.now == s.now
            && (forall q :: q != k ==> At(s', q) == At(s, q))
            && At(s', k) == Effect(At(s, k), s.now, t, cmd)
            && |s'.threads| == |s.threads| + (if cmd.Spawn? then 1 else 0)
            && (forall u | 0 <= u < |s.threads| && u != t :: s'.threads[u] == s.threads[u])
            && s'.threads[t].key == k && s'.threads[t].job == s.threads[t].job && s'.threads[t].pc == pc'
            && (cmd.Spawn? ==> s'.threads[|s.threads|] == Thread(k, cmd.job, InitialPc(cmd.job), 0))
  {
  }

  /** What the locking law says about the slot of the moving thread. */
  lemma MoveSlot(s: State, t: Tid, v: View, pc': PC, cmd: Cmd)
    requires Locked(s) && t < |s.threads| && v == ViewOf(s, t)
    requires LockLaw(s.threads[t].job, s.threads[t].pc, v, pc', cmd)
    ensures var slot, slot' := At(s, s.threads[t].key), Effect(At(s, s.threads[t].key), s.now, t, cmd);
            && (Holds(s.threads[t].job, pc') <==> slot'.holder == Some(t))
            && (forall u | u != t :: slot'.holder == Some(u) <==> slot.holder == Some(u))
            && (slot'.holder.Some? && slot'.holder != slot.holder ==> slot'.holder == Some(t))
            && (cmd.Spawn? ==> !Holds(cmd.job, InitialPc(cmd.job)))
  {
    assert Holds(s.threads[t].job, s.threads[t].pc) <==> At(s, s.threads[t].key).holder == Some(t);
  }

  /** After a move, holding is being the recorded holder. */
  lemma MoveHolds(s: State, t: Tid, v: View, pc': PC, cmd: Cmd, u: Tid)
    requires Locked(s) && t < |s.threads| && v == ViewOf(s, t)
    requires LockLaw(s.threads[t].job, s.threads[t].pc, v, pc', cmd)
    requires u < |Move(s, t, pc', cmd).threads|
    ensures var s' := Move(s, t, pc', cmd);
            Holds(s'.threads[u].job, s'.threads[u].pc) <==> At(s', s'.threads[u].key).holder == Some(u)
  {
    MoveSlot(s, t, v, pc', cmd);
    MoveFrame(s, t, pc', cmd);
    hide LockLaw;
    hide Holds;
    var s' := Move(s, t, pc', cmd);
    if u < |s.threads| && u != t {
      assert s'.threads[u] == s.threads[u];
    }
  }

  /** After a move, a recorded holder is a thread of the key. */
  lemma MoveOwner(s: State, t: Tid, v: View, pc': PC, cmd: Cmd, k: Key)
    requires Locked(s) && t < |s.threads| && v == ViewOf(s, t)
    requires LockLaw(s.threads[t].job, s.threads[t].pc, v, pc', cmd)
    requires At(Move(s, t, pc', cmd), k).holder.Some?
    ensures var s' := Move(s, t, pc', cmd);
            At(s', k).holder.value < |s'.threads| && s'.threads[At(s', k).holder.value].key == k
  {
    MoveSlot(s, t, v, pc', cmd);
    MoveFrame(s, t, pc', cmd);
    hide LockLaw;
    hide Holds;
    var h := At(Move(s, t, pc', cmd), k).holder.value;
    if h != t {
      assert At(s, k).holder == Some(h);
    }
  }

  lemma MoveLocked(s: State, t: Tid, v: View, pc': PC, cmd: Cmd)
    requires Locked(s) && t < |s.threads| && v == ViewOf(s, t)
    requires LockLaw(s.threads[t].job, s.threads[t].pc, v, pc', cmd)
    ensures Locked(Move(s, t, pc', cmd))
  {
    hide LockLaw;
    hide Holds;
    hide Move;
    var s' := Move(s, t, pc', cmd);
    forall u | 0 <= u < |s'.threads|
      ensures Holds(s'.threads[u].job, s'.threads[u].pc) <==> At(s', s'.threads[u].key).holder == Some(u)
    {
      MoveHolds(s, t, v, pc', cmd, u);
    }
    forall k | At(s', k).holder.Some?
      ensures At(s', k).holder.value < |s'.threads| && s'.threads[At(s', k).holder.value].key == k
    {
      MoveOwner(s, t, v, pc', cmd, k);
    }
  }

  lemma MoveHelped(s: State, t: Tid, v: View, pc': PC, cmd: Cmd)
    requires Helped(s) && t < |s.threads| && v == ViewOf(s, t)
    requires LockLaw(s.threads[t].job, s.threads[t].pc, v, pc', cmd)
    requires cmd.Spawn? ==> !InitialPc(cmd.job).CoopWait?
    ensures Helped(Move(s, t, pc', cmd))
  {
    MoveFrame(s, t, pc', cmd);
    var s' := Move(s, t, pc', cmd);
    forall u | 0 <= u < |s'.threads| && s'.threads[u].pc.CoopWait? && s'.threads[u].pc.helper.Some?
      ensures var h := s'.threads[u].pc.helper.value;
              h < |s'.threads| && s'.threads[h].job.Helper? && s'.threads[h].key == s'.threads[u].key
    {
      if u != t {
        var h := s.threads[u].pc.helper.value;
        assert s.threads[h].job.Helper?;
      }
    }
  }

  lemma MoveGood(c: Config, s: State, t: Tid, v: View, pc': PC, cmd: Cmd)
    requires Good(c, s) && t < |s.threads| && v == ViewOf(s, t)
    requires Shape(c, s.threads[t].job, pc')
    requires cmd.Spawn? ==> Worker(cmd.job) && Shape(c, cmd.job, InitialPc(cmd.job))
    requires LockLaw(s.threads[t].job, s.threads[t].pc, v, pc', cmd)
    ensures Good(c, Move(s, t, pc', cmd))
  {
    MoveLocked(s, t, v, pc', cmd);
    MoveHelped(s, t, v, pc', cmd);
    MoveFrame(s, t, pc', cmd);
    var s' := Move(s, t, pc', cmd);
    forall u | 0 <= u < |s'.threads| ensures Shape(c, s'.threads[u].job, s'.threads[u].pc) {
      if u < |s.threads| && u != t { assert s'.threads[u] == s.threads[u]; }
    }
  }

  lemma GoodShape(c: Config, s: State, t: Tid)
    requires Good(c, s) && t < |s.threads|
    ensures Shape(c, s.threads[t].job, s.threads[t].pc)
  {
  }

  lemma BeginGood(c: Config, s: State, k: Key, job: Job)
    requires Good(c, s) && Admissible(c, job)
    ensures Good(c, Apply(c, s, Begin(k, job)))
  {
    var s' := Apply(c, s, Begin(k, job));
    assert forall q :: At(s', q) == At(s, q);
    assert forall u | 0 <= u < |s.threads| :: s'.threads[u] == s.threads[u];
  }

  lemma OutsideGood(c: Config, s: State, e: Event)
    requires Good(c, s) && !e.Begin? && !e.Step?
    ensures Good(c, Apply(c, s, e))
  {
    assert Apply(c, s, e).threads == s.threads;
    assert forall q :: At(Apply(c, s, e), q).holder == At(s, q).holder;
  }

  lemma {:induction false} StepGood(c: Config, s: State, e: Event)
    requires Good(c, s) && Enabled(c, s, e)
    ensures Good(c, Apply(c, s, e))
  {
    hide Local;
    hide LockLaw;
    hide Good;
    match e
    case Step(t, ch) =>
      var th, v := s.threads[t], ViewOf(s, t);
      assert Shape(c, th.job, th.pc) by { GoodShape(c, s, t); }
      LocalShape(c, th.job, th.pc, v, ch);
      LocalLock(c, th.job, th.pc, v, ch);
      var (pc', cmd) := Act(c, s, t, ch);
      MoveGood(c, s, t, v, pc', cmd);
    case Begin(k, job) => BeginGood(c, s, k, job);
    case _ => OutsideGood(c, s, e);
  }

  lemma {:induction false} RunGood(c: Config, r: Run)
    requires IsRun(c, r)
    ensures Good(c, Last(r))
  {
    match r
    case Start(s) => InitGood(c, s);
    case Then(p, e, s) => RunGood(c, p); StepGood(c, Last(p), e);
  }

  /** Where every call of k uses one policy, so does every thread of k that is a call. */
  lemma {:induction false} CallsUse(c: Config, r: Run, k: Key, p: Miss, t: Tid)
    requires IsRun(c, r) && OnlyMiss(r, k, p) && t < |Last(r).threads|
    requires Last(r).threads[t].key == k && Last(r).threads[t].job.Call?
    ensures Last(r).threads[t].job.req.miss == p
  {
    hide Local;
    hide Good;
    if r.Then? {
      var s := Last(r.prev);
      RunGood(c, r.prev);
      match r.event {
        case Step(u, ch) =>
          GoodShape(c, s, u);
          LocalShape(c, s.threads[u].job, s.threads[u].pc, ViewOf(s, u), ch);
          var (pc', cmd) := Act(c, s, u, ch);
          MoveFrame(s, u, pc', cmd);
          if t < |s.threads| { CallsUse(c, r.prev, k, p, t); }
        case _ =>
          if t < |s.threads| { CallsUse(c, r.prev, k, p, t); }
      }
    }
  }

  // ---------------------------------------------------------------------------------------------
  // Keyed mutual exclusion
  // ---------------------------------------------------------------------------------------------

  /** At most one thread is inside the locked section of a key; in particular at most one generator
      call made under the lock of that key is in flight. */
  lemma {:induction false} MutualExclusion(c: Config, r: Run, t: Tid, u: Tid)
    requires IsRun(c, r)
    requires t < |Last(r).threads| && u < |Last(r).threads|
    requires Last(r).threads[t].key == Last(r).threads[u].key
    requires Holds(Last(r).threads[t].job, Last(r).threads[t].pc)
    requires Holds(Last(r).threads[u].job, Last(r).threads[u].pc)
    ensures t == u
  {
    RunGood(c, r);
  }
}
