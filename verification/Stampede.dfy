/** Stampede protection over whole runs: how often a key can be filled, and what a fill may overwrite. */
module Stampede {
  import opened Vocabulary
  import opened Protocol
  import opened Locking

  /** Threads whose SET of the main key fills a miss; refreshes and direct Sets are not fills. */
  predicate Filler(job: Job) {
    job.Call? || job.WriteBack?
  }

  /** Step e writes the main entry of k. */
  predicate Writes(c: Config, s: State, e: Event, k: Key) {
    e.Step? && e.tid < |s.threads| &&
    var th := s.threads[e.tid];
    th.key == k && th.pc.Put? && SetLands(c, th.job, e.choice)
  }

  /** Step e is a successful miss fill of k: SYNC, locked COOPERATIVE, or the write behind ASYNC. */
  predicate Fills(c: Config, s: State, e: Event, k: Key) {
    Writes(c, s, e, k) && Filler(s.threads[e.tid].job)
  }

  function FillCount(c: Config, r: Run, k: Key): nat {
    match r
    case Start(_) => 0
    case Then(p, e, _) => FillCount(c, p, k) + if Fills(c, Last(p), e, k) then 1 else 0
  }

  /** How often k went from present to absent: by expiry, delete or eviction. */
  function RemovalCount(r: Run, k: Key): nat {
    match r
    case Start(_) => 0
    case Then(p, _, s) => RemovalCount(p, k) + if Live(Last(p), k) && !Live(s, k) then 1 else 0
  }

  /** A thread that saw the key absent under the lock and has not written it yet. */
  predicate Pending(job: Job, pc: PC) {
    (job.Call? && (pc.GenReady? || pc.Gen? || pc.Put?)) || (job.WriteBack? && pc.Put?)
  }

  ghost predicate PendingAt(s: State, k: Key) {
    var h := At(s, k).holder;
    h.Some? && h.value < |s.threads| && Pending(s.threads[h.value].job, s.threads[h.value].pc)
  }

  /** One fill of k is still affordable. */
  ghost function Credit(s: State, k: Key): nat {
    if !Live(s, k) || PendingAt(s, k) then 1 else 0
  }

  predicate PendingLaw(c: Config, job: Job, pc: PC, v: View, ch: Choice, pc': PC, cmd: Cmd) {
    && (cmd.SetMain? <==> pc.Put? && SetLands(c, job, ch))
    && (Pending(job, pc') ==> Pending(job, pc) || (v.main.None? && cmd.Nop?))
    && (cmd.SetMain? && Filler(job) ==> Pending(job, pc) && !Pending(job, pc'))
    && (cmd.SetMain? ==> Alive(Some(cmd.entry), v.now) && (Holds(job, pc) || job.Assign?))
    && (cmd.Spawn? ==> Worker(cmd.job) && !Pending(cmd.job, InitialPc(cmd.job)))
  }

  lemma LocalPending(c: Config, job: Job, pc: PC, v: View, ch: Choice)
    requires Shape(c, job, pc) && Can(c, pc, v, ch)
    ensures var (pc', cmd) := Local(c, job, pc, v, ch); PendingLaw(c, job, pc, v, ch, pc', cmd)
  {
  }

  lemma MoveCredit(c: Config, s: State, t: Tid, v: View, ch: Choice, pc': PC, cmd: Cmd, k: Key)
    requires Locked(s) && t < |s.threads| && v == ViewOf(s, t)
    requires LockLaw(s.threads[t].job, s.threads[t].pc, v, pc', cmd)
    requires PendingLaw(c, s.threads[t].job, s.threads[t].pc, v, ch, pc', cmd)
    ensures var s' := Move(s, t, pc', cmd);
            var fill := s.threads[t].key == k && cmd.SetMain? && Filler(s.threads[t].job);
            Credit(s', k) + (if fill then 1 else 0)
              <= Credit(s, k) + (if Live(s, k) && !Live(s', k) then 1 else 0)
  {
    MoveFrame(s, t, pc', cmd);
  }

  lemma {:induction false} StepCredit(c: Config, s: State, e: Event, k: Key)
    requires Good(c, s) && Enabled(c, s, e)
    ensures var s' := Apply(c, s, e);
            Credit(s', k) + (if Fills(c, s, e, k) then 1 else 0)
              <= Credit(s, k) + (if Live(s, k) && !Live(s', k) then 1 else 0)
  {
    match e
    case Step(t, ch) =>
      var th, v := s.threads[t], ViewOf(s, t);
      LocalLock(c, th.job, th.pc, v, ch);
      LocalPending(c, th.job, th.pc, v, ch);
      var (pc', cmd) := Act(c, s, t, ch);
      MoveCredit(c, s, t, v, ch, pc', cmd, k);
    case _ =>
  }

  lemma {:induction false} CreditBound(c: Config, r: Run, k: Key)
    requires IsRun(c, r)
    ensures FillCount(c, r, k) + Credit(Last(r), k) <= RemovalCount(r, k) + Credit(First(r), k)
  {
    match r
    case Start(_) =>
    case Then(p, e, s) =>
      CreditBound(c, p, k);
      RunGood(c, p);
      StepCredit(c, Last(p), e, k);
  }

  /** Stampede conservation.  In every run, with any number of callers and workers, with direct Sets
      and foreign writers, a key is filled at most once per time it became absent. */
  lemma {:induction false} StampedeConservation(c: Config, r: Run, k: Key)
    requires IsRun(c, r)
    ensures FillCount(c, r, k) <= (if Live(First(r), k) then 0 else 1) + RemovalCount(r, k)
  {
    CreditBound(c, r, k);
    FirstIsInitial(c, r);
  }

  lemma {:induction false} FirstIsInitial(c: Config, r: Run)
    requires IsRun(c, r)
    ensures Init(First(r))
  {
    if r.Then? { FirstIsInitial(c, r.prev); }
  }

  // ---------------------------------------------------------------------------------------------
  // First write wins
  // ---------------------------------------------------------------------------------------------

  /** Nobody writes k without its lock: no direct Set is called and no other process writes it. */
  predicate NoOutsideWrites(r: Run, k: Key) {
    match r
    case Start(_) => true
    case Then(p, e, _) =>
      NoOutsideWrites(p, k) && !(e.Begin? && e.key == k && e.job.Assign?) && !(e.Foreign? && e.key == k)
  }

  ghost predicate Unwritten(s: State, k: Key) {
    && (PendingAt(s, k) ==> !Live(s, k))
    && (forall t | 0 <= t < |s.threads| && s.threads[t].key == k :: !s.threads[t].job.Assign?)
  }

  lemma MoveUnwritten(c: Config, s: State, t: Tid, v: View, ch: Choice, pc': PC, cmd: Cmd, k: Key)
    requires Locked(s) && t < |s.threads| && v == ViewOf(s, t) && Unwritten(s, k)
    requires LockLaw(s.threads[t].job, s.threads[t].pc, v, pc', cmd)
    requires PendingLaw(c, s.threads[t].job, s.threads[t].pc, v, ch, pc', cmd)
    ensures Unwritten(Move(s, t, pc', cmd), k)
  {
    MoveFrame(s, t, pc', cmd);
    var s' := Move(s, t, pc', cmd);
    forall u | 0 <= u < |s'.threads| && s'.threads[u].key == k ensures !s'.threads[u].job.Assign? {
      if u < |s.threads| { assert s'.threads[u].job == s.threads[u].job; }
    }
  }

  lemma {:induction false} RunUnwritten(c: Config, r: Run, k: Key)
    requires IsRun(c, r) && NoOutsideWrites(r, k)
    ensures Unwritten(Last(r), k)
  {
    match r
    case Start(s) =>
      InitGood(c, s);
    case Then(p, e, s') =>
      RunUnwritten(c, p, k);
      RunGood(c, p);
      var s := Last(p);
      match e {
        case Step(t, ch) =>
          var th, v := s.threads[t], ViewOf(s, t);
          LocalLock(c, th.job, th.pc, v, ch);
          LocalPending(c, th.job, th.pc, v, ch);
          var (pc', cmd) := Act(c, s, t, ch);
          MoveUnwritten(c, s, t, v, ch, pc', cmd, k);
        case Begin(q, job) =>
          assert forall u | 0 <= u < |s.threads| :: s'.threads[u] == s.threads[u];
        case _ =>
          assert s'.threads == s.threads;
      }
  }

  /** First write wins.  Without outside writers every fill lands on an absent key, so a step that
      overwrites a live value is a refresh. */
  lemma {:induction false} FirstWriteWins(c: Config, r: Run, e: Event, k: Key)
    requires IsRun(c, r) && NoOutsideWrites(r, k) && Enabled(c, Last(r), e)
    requires Writes(c, Last(r), e, k)
    ensures Fills(c, Last(r), e, k) ==> !Live(Last(r), k)
    ensures Live(Last(r), k) ==> Last(r).threads[e.tid].job.Refresh? || Last(r).threads[e.tid].job.StaleRefresh?
  {
    RunGood(c, r);
    RunUnwritten(c, r, k);
    var s := Last(r);
    var th, v := s.threads[e.tid], ViewOf(s, e.tid);
    LocalPending(c, th.job, th.pc, v, e.choice);
    LocalShape(c, th.job, th.pc, v, e.choice);
    assert Holds(th.job, th.pc);
  }

  // ---------------------------------------------------------------------------------------------
  // Exactly when a fill overwrites
  // ---------------------------------------------------------------------------------------------

  /** Step e stores x in the main entry of k without the key lock: a direct Set, or another process. */
  predicate OutsideStores(c: Config, s: State, e: Event, k: Key, x: Entry) {
    || (Writes(c, s, e, k) && s.threads[e.tid].job.Assign?
        && x == Fresh(s.threads[e.tid].pc.value, s.now, Ttl(s.threads[e.tid].job)))
    || (e.Foreign? && e.key == k && x == Fresh(e.value, s.now, e.ttl))
  }

  /** Step e is the second look of thread t. */
  predicate SecondLook(s: State, e: Event, t: Tid) {
    e.Step? && e.tid == t && t < |s.threads| && s.threads[t].pc.Check?
  }

  /** The main entry x of k was stored from outside the lock after the second look of thread t, and is
      still stored. */
  ghost predicate Intruder(c: Config, r: Run, t: Tid, k: Key, x: Entry) {
    && r.Then?
    && !SecondLook(Last(r.prev), r.event, t)
    && At(r.state, k).main == Some(x)
    && (OutsideStores(c, Last(r.prev), r.event, k, x) || Intruder(c, r.prev, t, k, x))
  }

  predicate IntruderLaw(c: Config, job: Job, pc: PC, v: View, ch: Choice, pc': PC, cmd: Cmd) {
    && (Pending(job, pc') ==> (Pending(job, pc) && !cmd.SetMain?) || (pc.Check? && v.main.None? && cmd.Nop?))
    && (cmd.SetMain? ==> pc.Put? && SetLands(c, job, ch) && cmd.entry == Fresh(pc.value, v.now, Ttl(job)))
    && (cmd.SetMain? ==> Holds(job, pc) || job.Assign?)
    && (cmd.Spawn? ==> !Pending(cmd.job, InitialPc(cmd.job)))
  }

  lemma LocalIntruder(c: Config, job: Job, pc: PC, v: View, ch: Choice)
    requires Shape(c, job, pc) && Can(c, pc, v, ch)
    ensures var (pc', cmd) := Local(c, job, pc, v, ch); IntruderLaw(c, job, pc, v, ch, pc', cmd)
  {
  }

  /** Thread t has seen k absent under the lock and not yet written it. */
  predicate Owed(s: State, t: Tid, k: Key) {
    t < |s.threads| && s.threads[t].key == k && Pending(s.threads[t].job, s.threads[t].pc)
  }

  lemma PendingHolds(c: Config, s: State, t: Tid, k: Key)
    requires Good(c, s) && Owed(s, t, k)
    ensures At(s, k).holder == Some(t)
  {
    assert Holds(s.threads[t].job, s.threads[t].pc);
  }

  /** What one step means for a fill in progress: the live main entry after it was live before it, or is
      stored from outside, or the key was just seen absent. */
  lemma {:induction false} StepIntruder(c: Config, s: State, e: Event, t: Tid, k: Key)
    requires Good(c, s) && Enabled(c, s, e) && Owed(Apply(c, s, e), t, k) && Live(Apply(c, s, e), k)
    ensures !SecondLook(s, e, t)
    ensures var main := At(Apply(c, s, e), k).main;
            OutsideStores(c, s, e, k, main.value) || (Owed(s, t, k) && Live(s, k) && At(s, k).main == main)
  {
    hide Local;
    match e
    case Step(u, ch) =>
      var th, v := s.threads[u], ViewOf(s, u);
      GoodShape(c, s, u);
      LocalIntruder(c, th.job, th.pc, v, ch);
      var (pc', cmd) := Act(c, s, u, ch);
      MoveFrame(s, u, pc', cmd);
      if Owed(s, t, k) { PendingHolds(c, s, t, k); }
    case _ =>
  }

  lemma {:induction false} OwedIsIntruded(c: Config, r: Run, t: Tid, k: Key)
    requires IsRun(c, r) && Owed(Last(r), t, k) && Live(Last(r), k)
    ensures Intruder(c, r, t, k, At(Last(r), k).main.value)
  {
    match r
    case Start(_) =>
    case Then(p, e, s') =>
      RunGood(c, p);
      StepIntruder(c, Last(p), e, t, k);
      if !OutsideStores(c, Last(p), e, k, At(s', k).main.value) { OwedIsIntruded(c, p, t, k); }
  }

  /** Exactly when a fill overwrites a live value: if and only if that value was stored without the lock,
      by a direct Set or by another process, after the fill's own second look. */
  lemma {:induction false} OverwritesExactly(c: Config, r: Run, e: Event, k: Key)
    requires IsRun(c, r) && Enabled(c, Last(r), e) && Fills(c, Last(r), e, k)
    ensures Live(Last(r), k) <==>
              exists x :: Intruder(c, r, e.tid, k, x) && Alive(Some(x), Last(r).now)
  {
    var s := Last(r);
    var th, v := s.threads[e.tid], ViewOf(s, e.tid);
    RunGood(c, r);
    GoodShape(c, s, e.tid);
    LocalPending(c, th.job, th.pc, v, e.choice);
    if Live(s, k) { OwedIsIntruded(c, r, e.tid, k); }
  }
}
