/** Coalescing: concurrent SYNC and COOPERATIVE callers of an absent key share one generator call. */
module Coalescing {
  import opened Vocabulary
  import opened Protocol
  import opened Locking

  /** Step e starts a generator call for k. */
  predicate StartsGenerator(s: State, e: Event, k: Key) {
    e.Step? && e.tid < |s.threads| && s.threads[e.tid].key == k &&
    (s.threads[e.tid].pc.GenReady? || s.threads[e.tid].pc.FreeReady?)
  }

  /** The generator calls started for k between the runs base and r. */
  function CallsSince(base: Run, r: Run, k: Key): nat {
    if r == base || r.Start? then 0
    else CallsSince(base, r.prev, k) + if StartsGenerator(Last(r.prev), r.event, k) then 1 else 0
  }

  /** A SYNC or COOPERATIVE call whose value Redis will store; its hit policy does not matter. */
  predicate Shares(c: Config, job: Job) {
    job.Call? && (job.req.miss.Sync? || job.req.miss.Cooperative?) && job.req.gen.Some? &&
    (c.lang.Python? ==> job.req.ttl > 0)
  }

  /** A background worker that has not gone on to generate or to write. */
  predicate Idles(th: Thread) {
    Worker(th.job) &&
    (th.pc.LockWait? || th.pc.Signal? || th.pc.TryLock? || th.pc.Check? || th.pc.Cool? || th.pc == Unlock(Quiet)
     || th.pc == Done(Quiet))
  }

  /** A call that has not yet looked under the lock. */
  predicate Waits(c: Config, th: Thread) {
    Shares(c, th.job) &&
    (th.pc.Look? || th.pc.Dedup? || th.pc.Reread? || th.pc.Dispatch? || th.pc.CoopWait? || th.pc.LockWait?
     || th.pc.Check?)
  }

  /** A moment at which k is absent, whatever happened before: every thread of k has finished, is an idle
      worker, or is a call that has yet to look under the lock. */
  ghost predicate Absent(c: Config, s: State, k: Key) {
    !Live(s, k) && forall t | 0 <= t < |s.threads| && s.threads[t].key == k ::
                     s.threads[t].pc.Done? || Idles(s.threads[t]) || Waits(c, s.threads[t])
  }

  /** Thread t had finished when the segment began. */
  predicate Earlier(s0: State, t: Tid) {
    t < |s0.threads| && s0.threads[t].pc.Done?
  }

  /** Thread t of k goes from s to s': a call neither fails nor times out, and a background worker gives
      up without refreshing or writing. */
  predicate CalmStep(s: State, s': State, t: Tid, ch: Choice) {
    t < |s.threads| && t < |s'.threads| &&
    if s.threads[t].job.Call? then !ch.Fail? && !ch.Timeout?
    else !s'.threads[t].pc.GenReady? && !s'.threads[t].pc.Put?
  }

  /** The events the claim is about: only sharing calls arrive for k, none of their commands or generator
      calls fails, no cooperative wait times out, no background worker refreshes or writes k, nobody else
      writes k, and k is not removed once it is there. */
  predicate CalmEvent(c: Config, s: State, e: Event, s': State, k: Key) {
    && (Live(s, k) ==> Live(s', k))
    && match e
       case Begin(q, job) => q == k ==> Shares(c, job)
       case Foreign(q, _, _) => q != k
       case Step(t, ch) => t < |s.threads| && s.threads[t].key == k ==> CalmStep(s, s', t, ch)
       case _ => true
  }

  /** r continues base by a segment of such steps, and k is absent when the segment begins. */
  ghost predicate Calm(c: Config, base: Run, r: Run, k: Key) {
    if r == base then Absent(c, Last(base), k)
    else r.Then? && Calm(c, base, r.prev, k) && CalmEvent(c, Last(r.prev), r.event, r.state, k)
  }

  predicate Serves(out: Outcome, x: Value) {
    out == Cached(x) || out == Filled(x)
  }

  /** Where a thread of k can be while k is absent, and while k holds x. */
  predicate InStep(c: Config, th: Thread, x: Option<Value>) {
    || Idles(th)
    || Waits(c, th)
    || (Shares(c, th.job) &&
        (|| (x.None? && (th.pc.GenReady? || th.pc.Gen? || th.pc.Put?))
         || (x.Some? &&
             match th.pc
             case Trigger(y) => y == x.value
             case Gate(y) => y == x.value
             case PutShadow(y) => y == x.value
             case Record(y) => y == x.value
             case Unlock(out) => Serves(out, x.value)
             case Stamp(out) => Serves(out, x.value)
             case Done(out) => Serves(out, x.value)
             case _ => false)))
  }

  function MainOf(s: State, k: Key): Option<Value> {
    Read(At(s, k).main, s.now)
  }

  /** The lock holder of k has started its generator and not yet written. */
  ghost predicate Generating(s: State, k: Key) {
    var h := At(s, k).holder;
    h.Some? && h.value < |s.threads| && (s.threads[h.value].pc.Gen? || s.threads[h.value].pc.Put?)
  }

  ghost predicate Coalesced(c: Config, s0: State, s: State, k: Key, calls: nat) {
    && (forall t | 0 <= t < |s.threads| && s.threads[t].key == k :: Accounted(c, s0, s, t, MainOf(s, k)))
    && calls == if MainOf(s, k).Some? || Generating(s, k) then 1 else 0
  }

  predicate Accounted(c: Config, s0: State, s: State, t: Tid, x: Option<Value>)
    requires t < |s.threads|
  {
    (Earlier(s0, t) && s.threads[t].pc.Done?) || InStep(c, s.threads[t], x)
  }

  /** The main value after a step. */
  function MainAfter(v: View, cmd: Cmd): Option<Value> {
    if cmd.SetMain? then Some(cmd.entry.value) else v.main
  }

  predicate CalmLaw(c: Config, th: Thread, v: View, pc': PC, cmd: Cmd) {
    && InStep(c, th.(pc := pc'), MainAfter(v, cmd))
    && (cmd.SetMain? <==> th.pc.Put?)
    && (cmd.SetMain? ==> Alive(Some(cmd.entry), v.now))
    && !cmd.DelBoth? && (cmd.Spawn? ==> Worker(cmd.job))
    && (th.pc.GenReady? <==> pc'.Gen?)
    && (pc'.Put? <==> th.pc.Gen?)
    && (pc'.GenReady? ==> th.pc.Check?)
  }

  lemma CallCalm(c: Config, th: Thread, v: View, ch: Choice)
    requires th.job.Call? && Shape(c, th.job, th.pc) && Can(c, th.pc, v, ch) && InStep(c, th, v.main)
    requires !ch.Fail? && !ch.Timeout?
    ensures var (pc', cmd) := Local(c, th.job, th.pc, v, ch); CalmLaw(c, th, v, pc', cmd)
  {
  }

  lemma WorkerCalm(c: Config, th: Thread, v: View, ch: Choice)
    requires !th.job.Call? && Shape(c, th.job, th.pc) && Can(c, th.pc, v, ch) && InStep(c, th, v.main)
    requires var pc' := Local(c, th.job, th.pc, v, ch).0; !pc'.GenReady? && !pc'.Put?
    ensures var (pc', cmd) := Local(c, th.job, th.pc, v, ch); CalmLaw(c, th, v, pc', cmd)
  {
  }

  /** What the laws mean for the other threads: the main value changes only under the lock. */
  lemma MoveAccounted(c: Config, s0: State, s: State, t: Tid, v: View, pc': PC, cmd: Cmd, k: Key, calls: nat, u: Tid)
    requires Locked(s) && t < |s.threads| && v == ViewOf(s, t) && Coalesced(c, s0, s, k, calls)
    requires LockLaw(s.threads[t].job, s.threads[t].pc, v, pc', cmd)
    requires s.threads[t].key == k && CalmLaw(c, s.threads[t], v, pc', cmd)
    requires u < |Move(s, t, pc', cmd).threads| && Move(s, t, pc', cmd).threads[u].key == k
    ensures Accounted(c, s0, Move(s, t, pc', cmd), u, MainOf(Move(s, t, pc', cmd), k))
  {
    MoveFrame(s, t, pc', cmd);
    hide LockLaw;
    var s' := Move(s, t, pc', cmd);
    assert MainOf(s', k) == MainAfter(v, cmd);
    if u == t {
      assert s'.threads[t] == Advance(s.threads[t], pc', s.now);
    } else if u < |s.threads| {
      assert s'.threads[u] == s.threads[u] && Accounted(c, s0, s, u, MainOf(s, k));
      if cmd.SetMain? { OnlyHolderHolds(c, s0, s, t, u, k, calls); }
    }
  }

  /** The writer holds the lock, so no other thread of k is between its second look and its unlock. */
  lemma OnlyHolderHolds(c: Config, s0: State, s: State, t: Tid, u: Tid, k: Key, calls: nat)
    requires Locked(s) && t < |s.threads| && u < |s.threads| && u != t && Coalesced(c, s0, s, k, calls)
    requires s.threads[t].key == s.threads[u].key == k && s.threads[t].pc.Put?
    ensures !Holds(s.threads[u].job, s.threads[u].pc) && MainOf(s, k).None?
  {
    assert Accounted(c, s0, s, t, MainOf(s, k));
    assert Holds(s.threads[t].job, s.threads[t].pc);
  }

  /** What the laws mean for the count: a call is added exactly when the holder starts its generator. */
  lemma MoveCalls(c: Config, s0: State, s: State, t: Tid, v: View, pc': PC, cmd: Cmd, k: Key, calls: nat)
    requires Locked(s) && t < |s.threads| && v == ViewOf(s, t) && Coalesced(c, s0, s, k, calls)
    requires LockLaw(s.threads[t].job, s.threads[t].pc, v, pc', cmd)
    requires s.threads[t].key == k && CalmLaw(c, s.threads[t], v, pc', cmd) && InStep(c, s.threads[t], v.main)
    ensures var s' := Move(s, t, pc', cmd);
            calls + (if s.threads[t].pc.GenReady? then 1 else 0)
              == if MainOf(s', k).Some? || Generating(s', k) then 1 else 0
  {
    MoveFrame(s, t, pc', cmd);
    MoveSlot(s, t, v, pc', cmd);
    hide Accounted;
    assert MainOf(Move(s, t, pc', cmd), k) == MainAfter(v, cmd);
    assert Holds(s.threads[t].job, s.threads[t].pc) <==> At(s, k).holder == Some(t);
  }

  lemma MoveCoalesced(c: Config, s0: State, s: State, t: Tid, v: View, pc': PC, cmd: Cmd, k: Key, calls: nat)
    requires Locked(s) && t < |s.threads| && v == ViewOf(s, t) && Coalesced(c, s0, s, k, calls)
    requires LockLaw(s.threads[t].job, s.threads[t].pc, v, pc', cmd)
    requires s.threads[t].key == k && CalmLaw(c, s.threads[t], v, pc', cmd) && InStep(c, s.threads[t], v.main)
    ensures Coalesced(c, s0, Move(s, t, pc', cmd), k, calls + if s.threads[t].pc.GenReady? then 1 else 0)
  {
    MoveCalls(c, s0, s, t, v, pc', cmd, k, calls);
    var s' := Move(s, t, pc', cmd);
    forall u | 0 <= u < |s'.threads| && s'.threads[u].key == k ensures Accounted(c, s0, s', u, MainOf(s', k)) {
      MoveAccounted(c, s0, s, t, v, pc', cmd, k, calls, u);
    }
  }

  lemma OutsideCoalesced(c: Config, s0: State, s: State, s': State, k: Key, calls: nat)
    requires Coalesced(c, s0, s, k, calls) && Locked(s)
    requires At(s', k).holder == At(s, k).holder && MainOf(s', k) == MainOf(s, k) && |s.threads| <= |s'.threads|
    requires forall u | 0 <= u < |s.threads| && s.threads[u].key == k :: s'.threads[u] == s.threads[u]
    requires forall u | 0 <= u < |s'.threads| && s'.threads[u].key == k ::
               (u < |s.threads| && s.threads[u].key == k)
               || (u == |s.threads| && InStep(c, s'.threads[u], None) && s'.threads[u].pc.Look?)
    ensures Coalesced(c, s0, s', k, calls)
  {
    forall u | 0 <= u < |s'.threads| && s'.threads[u].key == k ensures Accounted(c, s0, s', u, MainOf(s', k)) {
      if u < |s.threads| { assert Accounted(c, s0, s, u, MainOf(s, k)); }
    }
  }

  /** A step of a thread of k. */
  lemma OwnStep(c: Config, s0: State, s: State, t: Tid, ch: Choice, k: Key, calls: nat)
    requires Good(c, s) && Enabled(c, s, Step(t, ch)) && Coalesced(c, s0, s, k, calls) && s.threads[t].key == k
    requires CalmStep(s, Apply(c, s, Step(t, ch)), t, ch)
    ensures Coalesced(c, s0, Apply(c, s, Step(t, ch)), k, calls + if s.threads[t].pc.GenReady? then 1 else 0)
    ensures !s.threads[t].pc.FreeReady?
  {
    hide Local;
    hide LockLaw;
    hide CalmLaw;
    GoodShape(c, s, t);
    var th, v := s.threads[t], ViewOf(s, t);
    var (pc', cmd) := Act(c, s, t, ch);
    assert Accounted(c, s0, s, t, MainOf(s, k));
    MoveFrame(s, t, pc', cmd);
    LocalLock(c, th.job, th.pc, v, ch);
    if th.job.Call? { CallCalm(c, th, v, ch); } else { WorkerCalm(c, th, v, ch); }
    hide InStep;
    hide Coalesced;
    MoveCoalesced(c, s0, s, t, v, pc', cmd, k, calls);
  }

  /** A step of a thread of another key. */
  lemma OtherStep(c: Config, s0: State, s: State, t: Tid, ch: Choice, k: Key, calls: nat)
    requires Good(c, s) && Enabled(c, s, Step(t, ch)) && Coalesced(c, s0, s, k, calls) && s.threads[t].key != k
    ensures Coalesced(c, s0, Apply(c, s, Step(t, ch)), k, calls)
  {
    hide Local;
    var (pc', cmd) := Act(c, s, t, ch);
    MoveFrame(s, t, pc', cmd);
    OutsideCoalesced(c, s0, s, Apply(c, s, Step(t, ch)), k, calls);
  }

  lemma {:induction false} StepCoalesced(c: Config, s0: State, s: State, e: Event, k: Key, calls: nat)
    requires Good(c, s) && Enabled(c, s, e) && Coalesced(c, s0, s, k, calls)
    requires CalmEvent(c, s, e, Apply(c, s, e), k)
    ensures Coalesced(c, s0, Apply(c, s, e), k, calls + if StartsGenerator(s, e, k) then 1 else 0)
  {
    hide Local;
    match e
    case Step(t, ch) =>
      if s.threads[t].key == k {
        OwnStep(c, s0, s, t, ch, k, calls);
      } else {
        OtherStep(c, s0, s, t, ch, k, calls);
      }
    case _ => OutsideCoalesced(c, s0, s, Apply(c, s, e), k, calls);
  }

  lemma {:induction false} RunCoalesced(c: Config, base: Run, r: Run, k: Key)
    requires IsRun(c, r) && Calm(c, base, r, k)
    ensures Coalesced(c, Last(base), Last(r), k, CallsSince(base, r, k))
  {
    if r == base {
      RunGood(c, r);
      forall t | 0 <= t < |Last(r).threads| && Last(r).threads[t].key == k
        ensures Accounted(c, Last(r), Last(r), t, MainOf(Last(r), k))
      {
        assert Last(r).threads[t].pc.Done? || Idles(Last(r).threads[t]) || Waits(c, Last(r).threads[t]);
      }
    } else {
      RunCoalesced(c, base, r.prev, k);
      RunGood(c, r.prev);
      StepCoalesced(c, Last(base), Last(r.prev), r.event, k, CallsSince(base, r.prev, k));
    }
  }

  /** Coalescing.  Take any reachable moment at which k is absent, after expiry, a delete or anything else,
      and at which no call of k is past its second look and no worker of k past its checks.  However many
      SYNC and COOPERATIVE calls interleave from there on, under whatever hit policy, the generator is
      called at most once as long as no background refresh comes in between; once any of them has returned
      it was called exactly once, and all that have returned since returned the same value. */
  lemma {:induction false} OneGeneratorCall(c: Config, base: Run, r: Run, k: Key)
    requires IsRun(c, r) && Calm(c, base, r, k)
    ensures CallsSince(base, r, k) <= 1
    ensures forall t | 0 <= t < |Last(r).threads| && Last(r).threads[t].key == k && !Earlier(Last(base), t)
                       && Last(r).threads[t].job.Call? && Last(r).threads[t].pc.Done? ::
              CallsSince(base, r, k) == 1 && MainOf(Last(r), k).Some? &&
              Serves(Last(r).threads[t].pc.out, MainOf(Last(r), k).value)
  {
    RunCoalesced(c, base, r, k);
    var s := Last(r);
    forall t | 0 <= t < |s.threads| && s.threads[t].key == k && !Earlier(Last(base), t)
               && s.threads[t].job.Call? && s.threads[t].pc.Done?
      ensures MainOf(s, k).Some? && Serves(s.threads[t].pc.out, MainOf(s, k).value)
    {
      assert Accounted(c, Last(base), s, t, MainOf(s, k));
    }
  }
}
