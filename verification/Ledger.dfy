/** The generator-call ledger: what became of every generator call ever started for a key. */
module Ledger {
  import opened Vocabulary
  import opened Protocol
  import opened Locking
  import opened Progress

  /** How a step of a thread of k is booked. */
  datatype Booking =
    | Started      // a generator call begins
    | FilledMain   // its value was written by a locked miss fill
    | Refreshed    // its value was written by a background refresh
    | Returned     // its value was returned by an ASYNC call
    | Bypassed     // its value was returned after a cooperative time-out
    | Unstored     // it failed, or the main key did not take its value
    | Nothing

  predicate Owner(job: Job) {
    job.Call? || job.Refresh? || job.StaleRefresh?
  }

  function BookLocal(c: Config, job: Job, pc: PC, ch: Choice): Booking {
    match pc
    case GenReady => Started
    case FreeReady => Started
    case Gen => if ch.Fail? then Unstored else Nothing
    case FreeGen =>
      if ch.Fail? then Unstored else if job.Call? && job.req.miss.Async? then Nothing else Bypassed
    case Handoff(_) => Returned
    case Put(_) =>
      if !Owner(job) then Nothing
      else if !SetLands(c, job, ch) then Unstored
      else if job.Call? then FilledMain else Refreshed
    case _ => Nothing
  }

  function Book(c: Config, s: State, e: Event, k: Key): Booking {
    if e.Step? && e.tid < |s.threads| && s.threads[e.tid].key == k
    then BookLocal(c, s.threads[e.tid].job, s.threads[e.tid].pc, e.choice) else Nothing
  }

  function Entries(c: Config, r: Run, k: Key, b: Booking): nat {
    match r
    case Start(_) => 0
    case Then(p, e, _) => Entries(c, p, k, b) + if Book(c, Last(p), e, k) == b then 1 else 0
  }

  /** A thread that has a generator call or its unwritten value on its hands. */
  predicate Owes(th: Thread) {
    th.pc.Gen? || th.pc.FreeGen? || th.pc.Handoff? || (th.pc.Put? && Owner(th.job))
  }

  function OwesFor(k: Key): Thread -> nat {
    (th: Thread) => if th.key == k && Owes(th) then 1 else 0
  }

  function InFlight(s: State, k: Key): nat {
    Sum(s.threads, OwesFor(k))
  }

  predicate OweLaw(c: Config, th: Thread, v: View, ch: Choice, pc': PC, cmd: Cmd) {
    var b := BookLocal(c, th.job, th.pc, ch);
    && (b.Started? ==> !Owes(th) && Owes(th.(pc := pc')))
    && (b.Nothing? ==> (Owes(th.(pc := pc')) <==> Owes(th)))
    && (!b.Started? && !b.Nothing? ==> Owes(th) && !Owes(th.(pc := pc')))
    && (b.Bypassed? ==> cmd.Nop?)
    && (b.Started? ==> GeneratorOf(th.job).Some? && (th.job.Call? ==> !th.job.req.miss.FailFast?))
    && (cmd.Spawn? ==> Worker(cmd.job))
  }

  lemma LocalOwe(c: Config, th: Thread, v: View, ch: Choice)
    requires Shape(c, th.job, th.pc) && Can(c, th.pc, v, ch)
    ensures var (pc', cmd) := Local(c, th.job, th.pc, v, ch); OweLaw(c, th, v, ch, pc', cmd)
  {
  }

  lemma MoveOwes(c: Config, s: State, t: Tid, ch: Choice, v: View, pc': PC, cmd: Cmd, k: Key)
    requires t < |s.threads| && OweLaw(c, s.threads[t], v, ch, pc', cmd)
    ensures var b, s' := Book(c, s, Step(t, ch), k), Move(s, t, pc', cmd);
            InFlight(s', k) + (if b.Started? || b.Nothing? then 0 else 1)
              == InFlight(s, k) + (if b.Started? then 1 else 0)
  {
    var th := s.threads[t];
    MoveSum(s, t, pc', cmd, OwesFor(k));
    assert Owes(Advance(th, pc', s.now)) == Owes(th.(pc := pc'));
    if cmd.Spawn? { assert !Owes(Thread(th.key, cmd.job, InitialPc(cmd.job), 0)); }
  }

  lemma {:induction false} StepOwes(c: Config, s: State, e: Event, k: Key)
    requires Good(c, s) && Enabled(c, s, e)
    ensures var b, s' := Book(c, s, e, k), Apply(c, s, e);
            InFlight(s', k) + (if b.Started? || b.Nothing? then 0 else 1)
              == InFlight(s, k) + (if b.Started? then 1 else 0)
  {
    match e
    case Step(t, ch) =>
      LocalOwe(c, s.threads[t], ViewOf(s, t), ch);
      var (pc', cmd) := Act(c, s, t, ch);
      MoveOwes(c, s, t, ch, ViewOf(s, t), pc', cmd, k);
    case Begin(q, job) =>
      SumAppend(s.threads, Thread(q, job, InitialPc(job), 0), OwesFor(k));
    case _ =>
  }

  /** The ledger balances.  On every run the generator calls started for a key are its locked fills, its
      refreshes, its ASYNC returns, its time-out bypasses, the calls that failed or whose value the main key
      did not take, and the calls still in flight. */
  lemma {:induction false} LedgerBalances(c: Config, r: Run, k: Key)
    requires IsRun(c, r)
    ensures Entries(c, r, k, Started)
              == Entries(c, r, k, FilledMain) + Entries(c, r, k, Refreshed) + Entries(c, r, k, Returned)
                 + Entries(c, r, k, Bypassed) + Entries(c, r, k, Unstored) + InFlight(Last(r), k)
  {
    match r
    case Start(_) =>
    case Then(p, e, _) =>
      LedgerBalances(c, p, k);
      RunGood(c, p);
      StepOwes(c, Last(p), e, k);
  }

  /** A time-out bypass stores nothing anywhere, and a FAIL_FAST call never starts a generator. */
  lemma {:induction false} QuietBookings(c: Config, r: Run, t: Tid, ch: Choice, k: Key)
    requires IsRun(c, r) && Enabled(c, Last(r), Step(t, ch))
    requires Last(r).threads[t].key == k
    ensures Book(c, Last(r), Step(t, ch), k).Bypassed? ==>
              forall q :: At(Apply(c, Last(r), Step(t, ch)), q) == At(Last(r), q)
    ensures Book(c, Last(r), Step(t, ch), k).Started? ==>
              var job := Last(r).threads[t].job;
              GeneratorOf(job).Some? && (job.Call? ==> !job.req.miss.FailFast?)
  {
    RunGood(c, r);
    LocalOwe(c, Last(r).threads[t], ViewOf(Last(r), t), ch);
  }

  /** The columns mean what they are called: a fill entry is a call's own write of the main key, a refresh
      entry a refresh worker's write, an ASYNC return queues the write of its value, and a started call has
      its generator running afterwards. */
  lemma {:induction false} BookedRight(c: Config, r: Run, t: Tid, ch: Choice)
    requires IsRun(c, r) && Enabled(c, Last(r), Step(t, ch))
    ensures var s, th := Last(r), Last(r).threads[t];
            var b, act := Book(c, s, Step(t, ch), th.key), Act(c, s, t, ch);
            && (b.FilledMain? <==> act.1.SetMain? && th.job.Call?)
            && (b.Refreshed? <==> act.1.SetMain? && (th.job.Refresh? || th.job.StaleRefresh?))
            && (b.Returned? <==> act.1.Spawn? && act.1.job.WriteBack?)
            && (b.Started? <==> act.0.Gen? || act.0.FreeGen?)
            && (b.Bypassed? ==> th.job.Call? && th.job.req.miss.Cooperative? && ch.Yield?)
  {
    RunGood(c, r);
    GoodShape(c, Last(r), t);
    hide Good;
    LocalBooked(c, Last(r).threads[t].job, Last(r).threads[t].pc, ViewOf(Last(r), t), ch);
  }

  lemma LocalBooked(c: Config, job: Job, pc: PC, v: View, ch: Choice)
    requires Shape(c, job, pc) && Can(c, pc, v, ch)
    ensures var b, act := BookLocal(c, job, pc, ch), Local(c, job, pc, v, ch);
            && (b.FilledMain? <==> act.1.SetMain? && job.Call?)
            && (b.Refreshed? <==> act.1.SetMain? && (job.Refresh? || job.StaleRefresh?))
            && (b.Returned? <==> act.1.Spawn? && act.1.job.WriteBack?)
            && (b.Started? <==> act.0.Gen? || act.0.FreeGen?)
            && (b.Bypassed? ==> job.Call? && job.req.miss.Cooperative? && ch.Yield?)
  {
  }

  // ---------------------------------------------------------------------------------------------
  // Calls that never refresh
  // ---------------------------------------------------------------------------------------------

  /** A call that asks for no background refresh: hits do not trigger one, and neither does a stale answer,
      which Python refreshes whatever the call says. */
  predicate Restful(c: Config, req: Request) {
    (req.noRefresh || req.hit.NoHit?) && (req.miss.StaleOrSync? ==> c.lang.Go? && req.noRefresh)
  }

  predicate RestfulCalls(c: Config, r: Run, k: Key) {
    r.Then? ==>
      RestfulCalls(c, r.prev, k) &&
      (r.event.Begin? && r.event.key == k && r.event.job.Call? ==> Restful(c, r.event.job.req))
  }

  /** A thread that will never refresh. */
  predicate Rests(c: Config, job: Job, pc: PC) {
    !job.Refresh? && !job.StaleRefresh? &&
    (job.Call? ==> Restful(c, job.req) && !pc.Gate? && (pc.Trigger? ==> job.req.hit.NoHit?))
  }

  lemma LocalRest(c: Config, job: Job, pc: PC, v: View, ch: Choice)
    requires Shape(c, job, pc) && Can(c, pc, v, ch) && Rests(c, job, pc)
    ensures var (pc', cmd) := Local(c, job, pc, v, ch);
            Rests(c, job, pc') && (cmd.Spawn? ==> Rests(c, cmd.job, InitialPc(cmd.job)))
  {
  }

  /** If every call of k asks for no refresh (NONE, or hit refresh disabled), k never has a refresh worker,
      and no generator call of k ends in a refresh. */
  lemma {:induction false} RestfulRun(c: Config, r: Run, k: Key)
    requires IsRun(c, r) && RestfulCalls(c, r, k)
    ensures forall t | 0 <= t < |Last(r).threads| && Last(r).threads[t].key == k ::
              Rests(c, Last(r).threads[t].job, Last(r).threads[t].pc)
    ensures Entries(c, r, k, Refreshed) == 0
  {
    if r.Then? {
      var s, s' := Last(r.prev), r.state;
      RestfulRun(c, r.prev, k);
      RunGood(c, r.prev);
      forall t | 0 <= t < |s'.threads| && s'.threads[t].key == k ensures Rests(c, s'.threads[t].job, s'.threads[t].pc) {
        StepRests(c, s, r.event, k, t);
      }
    }
  }

  lemma {:induction false} StepRests(c: Config, s: State, e: Event, k: Key, t: Tid)
    requires Good(c, s) && Enabled(c, s, e)
    requires forall u | 0 <= u < |s.threads| && s.threads[u].key == k :: Rests(c, s.threads[u].job, s.threads[u].pc)
    requires e.Begin? && e.key == k && e.job.Call? ==> Restful(c, e.job.req)
    requires t < |Apply(c, s, e).threads| && Apply(c, s, e).threads[t].key == k
    ensures Rests(c, Apply(c, s, e).threads[t].job, Apply(c, s, e).threads[t].pc)
  {
    hide Local;
    hide Good;
    match e
    case Step(u, ch) =>
      var th, v := s.threads[u], ViewOf(s, u);
      GoodShape(c, s, u);
      if th.key == k { LocalRest(c, th.job, th.pc, v, ch); }
      var (pc', cmd) := Act(c, s, u, ch);
      MoveFrame(s, u, pc', cmd);
    case _ =>
      if t < |s.threads| { assert Apply(c, s, e).threads[t] == s.threads[t]; }
  }

  /** If moreover every call of k is FAIL_FAST, no generator call of k ever starts. */
  lemma {:induction false} FailFastNeverGenerates(c: Config, r: Run, k: Key)
    requires IsRun(c, r) && RestfulCalls(c, r, k) && OnlyMiss(r, k, FailFast)
    ensures Entries(c, r, k, Started) == 0
  {
    if r.Then? {
      FailFastNeverGenerates(c, r.prev, k);
      RestfulRun(c, r.prev, k);
      RunGood(c, r.prev);
      var s, e := Last(r.prev), r.event;
      if e.Step? && s.threads[e.tid].key == k {
        GoodShape(c, s, e.tid);
        if s.threads[e.tid].job.Call? { CallsUse(c, r.prev, k, FailFast, e.tid); }
      }
    }
  }
}
