/** When two generator calls of one key can be in flight at the same time. */
module Overlap {
  import opened Vocabulary
  import opened Protocol
  import opened Locking
  import opened Progress
  import opened Scenarios

  /** Thread t is running a generator. */
  predicate InGenerator(s: State, t: Tid) {
    t < |s.threads| && (s.threads[t].pc.Gen? || s.threads[t].pc.FreeGen?)
  }

  /** Two generator calls of one key are in flight together only if one of them runs outside the lock:
      it belongs to an ASYNC call, or to a cooperative call whose wait timed out. */
  lemma {:induction false} OverlapIsUnlocked(c: Config, r: Run, t: Tid, u: Tid)
    requires IsRun(c, r) && InGenerator(Last(r), t) && InGenerator(Last(r), u) && t != u
    requires Last(r).threads[t].key == Last(r).threads[u].key
    ensures exists w | w == t || w == u ::
              Last(r).threads[w].pc.FreeGen? && Last(r).threads[w].job.Call? &&
              (Last(r).threads[w].job.req.miss.Async? || Last(r).threads[w].job.req.miss.Cooperative?)
  {
    RunGood(c, r);
    assert Shape(c, Last(r).threads[t].job, Last(r).threads[t].pc);
    assert Shape(c, Last(r).threads[u].job, Last(r).threads[u].pc);
    var w := if Last(r).threads[t].pc.FreeGen? then t else u;
    assert Last(r).threads[w].pc.FreeGen?;
  }

  /** No ASYNC call of k is made, and no cooperative wait for k times out. */
  predicate Orderly(r: Run, k: Key) {
    r.Then? ==>
      Orderly(r.prev, k) &&
      match r.event
      case Begin(q, Call(req)) => q == k ==> !req.miss.Async?
      case Step(t, ch) => t < |Last(r.prev).threads| && Last(r.prev).threads[t].key == k ==> !ch.Timeout?
      case _ => true
  }

  predicate Unlocked(pc: PC) {
    pc.FreeReady? || pc.FreeGen? || pc.Handoff?
  }

  ghost predicate AllLocked(s: State, k: Key) {
    forall t | 0 <= t < |s.threads| && s.threads[t].key == k ::
      !Unlocked(s.threads[t].pc) && (s.threads[t].job.Call? ==> !s.threads[t].job.req.miss.Async?)
  }

  lemma LocalUnlocked(c: Config, job: Job, pc: PC, v: View, ch: Choice)
    requires Shape(c, job, pc) && Can(c, pc, v, ch) && !ch.Timeout? && !Unlocked(pc)
    requires job.Call? ==> !job.req.miss.Async?
    ensures var (pc', cmd) := Local(c, job, pc, v, ch); !Unlocked(pc') && (cmd.Spawn? ==> Worker(cmd.job))
  {
  }

  lemma MoveAllLocked(s: State, t: Tid, pc': PC, cmd: Cmd, k: Key)
    requires t < |s.threads| && AllLocked(s, k) && (s.threads[t].key == k ==> !Unlocked(pc'))
    requires cmd.Spawn? ==> Worker(cmd.job)
    ensures AllLocked(Move(s, t, pc', cmd), k)
  {
    MoveFrame(s, t, pc', cmd);
    var s' := Move(s, t, pc', cmd);
    forall u | 0 <= u < |s'.threads| && s'.threads[u].key == k
      ensures !Unlocked(s'.threads[u].pc) && (s'.threads[u].job.Call? ==> !s'.threads[u].job.req.miss.Async?)
    {
      if u < |s.threads| && u != t { assert s'.threads[u] == s.threads[u]; }
    }
  }

  lemma {:induction false} StepAllLocked(c: Config, s: State, e: Event, k: Key)
    requires Good(c, s) && Enabled(c, s, e) && AllLocked(s, k)
    requires e.Begin? && e.key == k && e.job.Call? ==> !e.job.req.miss.Async?
    requires e.Step? && s.threads[e.tid].key == k ==> !e.choice.Timeout?
    ensures AllLocked(Apply(c, s, e), k)
  {
    match e
    case Step(t, ch) =>
      var (pc', cmd) := Act(c, s, t, ch);
      LocalShape(c, s.threads[t].job, s.threads[t].pc, ViewOf(s, t), ch);
      if s.threads[t].key == k {
        LocalUnlocked(c, s.threads[t].job, s.threads[t].pc, ViewOf(s, t), ch);
      }
      MoveAllLocked(s, t, pc', cmd, k);
    case Begin(q, job) =>
      assert forall u | 0 <= u < |s.threads| :: Apply(c, s, e).threads[u] == s.threads[u];
    case _ =>
      assert Apply(c, s, e).threads == s.threads;
  }

  lemma {:induction false} RunAllLocked(c: Config, r: Run, k: Key)
    requires IsRun(c, r) && Orderly(r, k)
    ensures AllLocked(Last(r), k)
  {
    if r.Then? {
      RunAllLocked(c, r.prev, k);
      RunGood(c, r.prev);
      StepAllLocked(c, Last(r.prev), r.event, k);
    }
  }

  /** Without ASYNC calls and without cooperative time-outs, at most one generator call per key is in
      flight, whatever the policies, refreshes and direct writes around it. */
  lemma {:induction false} OneGeneratorAtATime(c: Config, r: Run, t: Tid, u: Tid)
    requires IsRun(c, r) && InGenerator(Last(r), t) && InGenerator(Last(r), u)
    requires Last(r).threads[t].key == Last(r).threads[u].key && Orderly(r, Last(r).threads[t].key)
    ensures t == u
  {
    RunAllLocked(c, r, Last(r).threads[t].key);
    if t != u { OverlapIsUnlocked(c, r, t, u); }
  }

  // ---------------------------------------------------------------------------------------------
  // How many there can be
  // ---------------------------------------------------------------------------------------------

  /** The generator calls of k in flight. */
  function RunningFor(k: Key): Thread -> nat {
    (th: Thread) => if th.key == k && (th.pc.Gen? || th.pc.FreeGen?) then 1 else 0
  }

  function LockedFor(k: Key): Thread -> nat {
    (th: Thread) => if th.key == k && th.pc.Gen? then 1 else 0
  }

  /** The threads of k that are allowed to generate outside the lock. */
  function LicensedFor(k: Key): Thread -> nat {
    (th: Thread) => if th.key == k && (Unlocked(th.pc) || (th.job.Call? && th.job.req.miss.Async?)) then 1 else 0
  }

  function InFlight(s: State, k: Key): nat {
    Sum(s.threads, RunningFor(k))
  }

  /** The licence an event gives out for k. */
  function Licence(s: State, e: Event, k: Key): nat {
    match e
    case Begin(q, job) => if q == k && job.Call? && job.req.miss.Async? then 1 else 0
    case Step(t, ch) => if t < |s.threads| && s.threads[t].key == k && ch.Timeout? then 1 else 0
    case _ => 0
  }

  /** The ASYNC calls of k that were made, and the cooperative waits for k that timed out. */
  function Licences(r: Run, k: Key): nat {
    match r case Start(_) => 0 case Then(p, e, _) => Licences(p, k) + Licence(Last(p), e, k)
  }

  lemma {:induction false} SumSplit(ts: seq<Thread>, k: Key)
    ensures Sum(ts, RunningFor(k)) <= Sum(ts, LockedFor(k)) + Sum(ts, LicensedFor(k))
  {
    if ts != [] { SumSplit(ts[..|ts| - 1], k); }
  }

  /** A sum of which at most one summand is not zero. */
  lemma {:induction false} SumAlone(ts: seq<Thread>, f: Thread -> nat)
    requires forall t | 0 <= t < |ts| :: f(ts[t]) <= 1
    requires forall t, u | 0 <= t < u < |ts| :: f(ts[t]) == 0 || f(ts[u]) == 0
    ensures Sum(ts, f) <= 1
  {
    if ts != [] {
      var n := |ts| - 1;
      if f(ts[n]) == 0 {
        SumAlone(ts[..n], f);
      } else {
        forall t | 0 <= t < n ensures f(ts[..n][t]) == 0 { assert ts[..n][t] == ts[t]; }
        SumZero(ts[..n], f);
      }
    }
  }

  lemma {:induction false} SumZero(ts: seq<Thread>, f: Thread -> nat)
    requires forall t | 0 <= t < |ts| :: f(ts[t]) == 0
    ensures Sum(ts, f) == 0
  {
    if ts != [] { SumZero(ts[..|ts| - 1], f); }
  }

  predicate LicenceLaw(job: Job, pc: PC, ch: Choice, pc': PC, cmd: Cmd) {
    && (Unlocked(pc') ==> Unlocked(pc) || ch.Timeout? || (job.Call? && job.req.miss.Async?))
    && (cmd.Spawn? ==> Worker(cmd.job))
  }

  lemma LocalLicence(c: Config, job: Job, pc: PC, v: View, ch: Choice)
    requires Shape(c, job, pc) && Can(c, pc, v, ch)
    ensures var (pc', cmd) := Local(c, job, pc, v, ch); LicenceLaw(job, pc, ch, pc', cmd)
  {
  }

  lemma MoveLicensed(s: State, t: Tid, ch: Choice, pc': PC, cmd: Cmd, k: Key)
    requires t < |s.threads| && LicenceLaw(s.threads[t].job, s.threads[t].pc, ch, pc', cmd)
    ensures Sum(Move(s, t, pc', cmd).threads, LicensedFor(k))
              <= Sum(s.threads, LicensedFor(k)) + Licence(s, Step(t, ch), k)
  {
    MoveSum(s, t, pc', cmd, LicensedFor(k));
  }

  lemma BeginLicensed(s: State, q: Key, job: Job, k: Key)
    ensures Sum(s.threads + [Thread(q, job, InitialPc(job), 0)], LicensedFor(k))
              <= Sum(s.threads, LicensedFor(k)) + Licence(s, Begin(q, job), k)
  {
    SumAppend(s.threads, Thread(q, job, InitialPc(job), 0), LicensedFor(k));
  }

  lemma {:induction false} StepLicensed(c: Config, s: State, e: Event, k: Key)
    requires Good(c, s) && Enabled(c, s, e)
    ensures Sum(Apply(c, s, e).threads, LicensedFor(k)) <= Sum(s.threads, LicensedFor(k)) + Licence(s, e, k)
  {
    hide Local;
    hide Good;
    hide Sum;
    hide LicenceLaw;
    hide Licence;
    match e
    case Step(t, ch) =>
      GoodShape(c, s, t);
      LocalLicence(c, s.threads[t].job, s.threads[t].pc, ViewOf(s, t), ch);
      var (pc', cmd) := Act(c, s, t, ch);
      MoveLicensed(s, t, ch, pc', cmd, k);
    case Begin(q, job) => BeginLicensed(s, q, job, k);
    case _ =>
      assert Apply(c, s, e).threads == s.threads;
  }

  lemma {:induction false} LicencesCover(c: Config, r: Run, k: Key)
    requires IsRun(c, r)
    ensures Sum(Last(r).threads, LicensedFor(k)) <= Licences(r, k)
  {
    if r.Then? {
      LicencesCover(c, r.prev, k);
      RunGood(c, r.prev);
      StepLicensed(c, Last(r.prev), r.event, k);
    }
  }

  /** How far stampede protection goes on any run: the generator calls of a key in flight number at most
      one, plus one for each ASYNC call of the key and for each of its cooperative waits that timed out. */
  lemma InFlightBound(c: Config, r: Run, k: Key)
    requires IsRun(c, r)
    ensures InFlight(Last(r), k) <= 1 + Licences(r, k)
  {
    var ts := Last(r).threads;
    RunGood(c, r);
    forall t, u | 0 <= t < u < |ts| ensures LockedFor(k)(ts[t]) == 0 || LockedFor(k)(ts[u]) == 0 {
      if ts[t].pc.Gen? && ts[u].pc.Gen? {
        assert Shape(c, ts[t].job, ts[t].pc) && Shape(c, ts[u].job, ts[u].pc);
        assert Holds(ts[t].job, ts[t].pc) && Holds(ts[u].job, ts[u].pc);
      }
    }
    SumAlone(ts, LockedFor(k));
    SumSplit(ts, k);
    LicencesCover(c, r, k);
  }

  // ---------------------------------------------------------------------------------------------
  // The policies under which it can happen
  // ---------------------------------------------------------------------------------------------

  /** t and u are two generator calls of k in flight at the end of r. */
  predicate Both(r: Run, k: Key, t: Tid, u: Tid) {
    t != u && InGenerator(Last(r), t) && InGenerator(Last(r), u)
    && Last(r).threads[t].key == k && Last(r).threads[u].key == k
  }

  /** Some run on which every call of k uses policy p has two generator calls of k in flight. */
  ghost predicate CanOverlap(c: Config, p: Miss) {
    exists r, k, t, u :: IsRun(c, r) && OnlyMiss(r, k, p) && Both(r, k, t, u)
  }

  /** A cooperative caller generates under the lock while another one, whose wait has timed out, generates
      without it; in Go the helper of the first has come and gone, and that of the second still waits. */
  lemma CooperativeOverlap(c: Config) returns (r: Run, u: Tid)
    ensures IsRun(c, r) && OnlyMiss(r, "k", Cooperative) && Both(r, "k", 0, u)
    ensures Last(r).threads[0].pc.Gen? && Last(r).threads[u].pc.FreeGen?
  {
    hide Scene;
    r := ToGenerator(c, Cooperative);
    var ths := [Acting(CallWith(Cooperative), Gen)] + HelperDone(c, Cooperative);
    u := |ths|;
    r := TimesOut(c, r, ths);
    SceneIs(c, Cooperative, r, HELD, ths + [Acting(CallWith(Cooperative), FreeGen)] + HelpersOf(c, Cooperative));
  }

  lemma SceneIs(c: Config, p: Miss, r: Run, slot: Slot, ths: seq<Thread>)
    requires Scene(c, p, r, slot, ths)
    ensures IsRun(c, r) && OnlyMiss(r, "k", p) && Last(r).threads == ths
  {
  }

  lemma TimesOut(c: Config, r: Run, ths: seq<Thread>) returns (r': Run)
    requires Scene(c, Cooperative, r, HELD, ths)
    ensures Scene(c, Cooperative, r', HELD, ths + [Acting(CallWith(Cooperative), FreeGen)] + HelpersOf(c, Cooperative))
  {
    hide Goes;
    hide Scene;
    var job, more, t := CallWith(Cooperative), HelpersOf(c, Cooperative), |ths|;
    var pc := Entered(c, Cooperative, ths);
    r' := Enters(c, Cooperative, r, HELD, ths);
    var a := ths + [Acting(job, pc)] + more;
    Waiting(c, Cooperative, Sight(HELD, a, t), pc.helper);
    r' := Steps(c, Cooperative, r', HELD, a, t, Timeout, FreeReady, Nop);
    assert Moved(a, t, FreeReady, Nop) == ths + [Acting(job, FreeReady)] + more;
    r' := FreeStep(c, Cooperative, r', HELD, ths, more);
  }

  /** A caller outside the lock starts its generator. */
  lemma FreeStep(c: Config, p: Miss, r: Run, slot: Slot, ths: seq<Thread>, more: seq<Thread>) returns (r': Run)
    requires Scene(c, p, r, slot, ths + [Acting(CallWith(p), FreeReady)] + more)
    ensures Scene(c, p, r', slot, ths + [Acting(CallWith(p), FreeGen)] + more)
  {
    hide Goes;
    hide Scene;
    var a, t := ths + [Acting(CallWith(p), FreeReady)] + more, |ths|;
    Waiting(c, p, Sight(slot, a, t), None);
    r' := Steps(c, p, r, slot, a, t, Ok, FreeGen, Nop);
    assert Moved(a, t, FreeGen, Nop) == ths + [Acting(CallWith(p), FreeGen)] + more;
  }

  /** Two ASYNC callers of an absent key both generate. */
  lemma AsyncOverlap(c: Config) returns (r: Run)
    ensures IsRun(c, r) && OnlyMiss(r, "k", Async) && Both(r, "k", 0, 1)
  {
    hide Scene;
    r := Opening(c, Async, EMPTY_SLOT);
    r := Enters(c, Async, r, EMPTY_SLOT, []);
    r := FreeStep(c, Async, r, EMPTY_SLOT, [], []);
    var one := [] + [Acting(CallWith(Async), FreeGen)] + [];
    r := Enters(c, Async, r, EMPTY_SLOT, one);
    r := FreeStep(c, Async, r, EMPTY_SLOT, one, []);
    SceneIs(c, Async, r, EMPTY_SLOT, one + [Acting(CallWith(Async), FreeGen)] + []);
  }

  /** Stampede protection by policy, exactly.  Whatever the language and the configuration, and whatever
      direct writes, refreshes and other processes do: a key whose calls all use policy p can have two
      generator calls in flight if and only if p is ASYNC or COOPERATIVE. */
  lemma OverlapExactly(c: Config, p: Miss)
    ensures CanOverlap(c, p) <==> p.Async? || p.Cooperative?
  {
    if r, k, t, u :| IsRun(c, r) && OnlyMiss(r, k, p) && Both(r, k, t, u) {
      OverlapIsUnlocked(c, r, t, u);
      var w :| (w == t || w == u) && Last(r).threads[w].pc.FreeGen? && Last(r).threads[w].job.Call? &&
               (Last(r).threads[w].job.req.miss.Async? || Last(r).threads[w].job.req.miss.Cooperative?);
      CallsUse(c, r, k, p, w);
    }
    if p.Cooperative? {
      var r, u := CooperativeOverlap(c);
    } else if p.Async? {
      var r := AsyncOverlap(c);
    }
  }
}
