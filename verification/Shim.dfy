/** The C shim around the Go handler: which generator a call hands to the library, and for how long a
    per-call generator may be used. */
module Shim {
  import opened Vocabulary
  import opened Protocol
  import opened Locking

  // ---------------------------------------------------------------------------------------------
  // The handle registry
  // ---------------------------------------------------------------------------------------------

  /** The registry of live handlers and of the generators registered for background work. */
  class Registry {
    var handles: set<int>
    var generators: map<int, Generator>
    var seqNo: int

    ghost predicate Valid()
      reads this
    {
      && (forall h <- handles :: 0 < h <= seqNo)
      && (forall h <- generators :: generators[h] == Registered(h))
      && 0 <= seqNo
    }

    constructor ()
      ensures Valid() && handles == {} && generators == map[]
    {
      handles, generators, seqNo := {}, map[], 0;
    }

    /** storeHandle: a handle is never issued twice. */
    method NewHandler() returns (h: int)
      requires Valid()
      modifies this
      ensures Valid() && h !in old(handles) && h > old(seqNo) && seqNo == h
      ensures handles == old(handles) + {h} && generators == old(generators)
    {
      seqNo := seqNo + 1;
      handles := handles + {seqNo};
      h := seqNo;
    }

    /** CashCov_SetGenerator: a null generator clears the registration. */
    method SetGenerator(h: int, present: bool)
      requires Valid()
      modifies this
      ensures Valid() && handles == old(handles) && seqNo == old(seqNo)
      ensures generators == if present then old(generators)[h := Registered(h)] else old(generators) - {h}
    {
      if present {
        generators := generators[h := Registered(h)];
      } else {
        generators := generators - {h};
      }
    }

    /** CashCov_DestroyHandler */
    method DestroyHandler(h: int)
      requires Valid()
      modifies this
      ensures Valid() && seqNo == old(seqNo)
      ensures handles == old(handles) - {h} && generators == old(generators) - {h}
    {
      handles := handles - {h};
      generators := generators - {h};
    }

    /** The choice CashCov_GetOrRefresh makes before it calls the library.  None is the NULL answer to a
        call without a key, without a generator callback, or with an unknown handle. */
    method Choose(h: int, keyGiven: bool, call: Option<nat>, r: Request) returns (chosen: Option<Request>)
      requires Valid()
      ensures chosen.None? <==> !keyGiven || call.None? || h !in handles
      ensures chosen.Some? ==> chosen.value == Chosen(h, h in generators, call.value, r)
      ensures chosen.Some? && h in generators ==> chosen.value == r.(gen := Some(Registered(h)), noRefresh := false)
      ensures chosen.Some? && h !in generators ==>
                chosen.value == r.(gen := Some(PerCall(call.value)), noRefresh := true)
    {
      if !keyGiven || call.None? || h !in handles {
        return None;
      }
      if h in generators {
        chosen := Some(r.(gen := Some(generators[h]), noRefresh := false));
      } else {
        chosen := Some(r.(gen := Some(PerCall(call.value)), noRefresh := true));
      }
    }
  }

  /** The request made for a call: a registered generator replaces the per-call one, and a per-call
      generator goes with background refresh disabled. */
  function Chosen(h: int, registered: bool, call: nat, r: Request): (chosen: Request)
    ensures SafeRequest(chosen)
    ensures registered ==> !Borrowed(chosen.gen)
  {
    if registered then r.(gen := Some(Registered(h)), noRefresh := false)
    else r.(gen := Some(PerCall(call)), noRefresh := true)
  }

  /** What the shim promises about the requests it makes: a per-call generator comes only with
      background refresh disabled. */
  predicate SafeRequest(r: Request) {
    r.gen.Some? && (r.gen.value.PerCall? ==> r.noRefresh)
  }

  // ---------------------------------------------------------------------------------------------
  // Generator lifetime
  // ---------------------------------------------------------------------------------------------

  predicate Borrowed(g: Option<Generator>) {
    g.Some? && g.value.PerCall?
  }

  /** Every call comes from the shim, and each per-call generator is passed to one call only. */
  ghost predicate ShimRun(r: Run) {
    r.Then? ==>
      ShimRun(r.prev) &&
      (r.event.Begin? && r.event.job.Call? ==>
         SafeRequest(r.event.job.req) &&
         (Borrowed(r.event.job.req.gen) ==> Unused(Last(r.prev), r.event.job.req.gen)))
  }

  ghost predicate Unused(s: State, g: Option<Generator>) {
    forall t | 0 <= t < |s.threads| :: GeneratorOf(s.threads[t].job) != g
  }

  /** Only calls carry per-call generators, with background refresh disabled, and no two the same. */
  ghost predicate Confined(s: State) {
    && (forall t | 0 <= t < |s.threads| && Borrowed(GeneratorOf(s.threads[t].job)) ::
          s.threads[t].job.Call? && s.threads[t].job.req.noRefresh
          && !s.threads[t].pc.Trigger? && !s.threads[t].pc.Gate?)
    && (forall t, u | 0 <= t < |s.threads| && 0 <= u < |s.threads|
                      && Borrowed(GeneratorOf(s.threads[t].job))
                      && GeneratorOf(s.threads[t].job) == GeneratorOf(s.threads[u].job) :: t == u)
  }

  predicate ConfineLaw(job: Job, pc: PC, pc': PC, cmd: Cmd) {
    && (job.Call? && job.req.noRefresh && !pc.Trigger? && !pc.Gate? ==>
          !pc'.Trigger? && !pc'.Gate? && (cmd.Spawn? ==> GeneratorOf(cmd.job).None?))
    && (cmd.Spawn? ==> Worker(cmd.job) && (GeneratorOf(cmd.job).None? || GeneratorOf(cmd.job) == GeneratorOf(job)))
  }

  /** In Go a call with background refresh disabled spawns no worker that carries a generator. */
  lemma LocalConfine(c: Config, job: Job, pc: PC, v: View, ch: Choice)
    requires c.lang.Go? && Shape(c, job, pc) && Can(c, pc, v, ch)
    ensures var (pc', cmd) := Local(c, job, pc, v, ch); ConfineLaw(job, pc, pc', cmd)
  {
  }

  lemma MoveConfined(s: State, t: Tid, pc': PC, cmd: Cmd)
    requires t < |s.threads| && Confined(s) && ConfineLaw(s.threads[t].job, s.threads[t].pc, pc', cmd)
    ensures Confined(Move(s, t, pc', cmd))
  {
    MoveFrame(s, t, pc', cmd);
    var s' := Move(s, t, pc', cmd);
    forall u | 0 <= u < |s.threads| ensures s'.threads[u].job == s.threads[u].job {
      if u != t { assert s'.threads[u] == s.threads[u]; }
    }
    assert cmd.Spawn? ==> !Borrowed(GeneratorOf(s'.threads[|s.threads|].job));
  }

  lemma {:induction false} StepConfined(c: Config, s: State, e: Event)
    requires c.lang.Go? && Good(c, s) && Enabled(c, s, e) && Confined(s)
    requires e.Begin? && e.job.Call? ==>
               SafeRequest(e.job.req) && (Borrowed(e.job.req.gen) ==> Unused(s, e.job.req.gen))
    ensures Confined(Apply(c, s, e))
  {
    match e
    case Step(t, ch) =>
      LocalConfine(c, s.threads[t].job, s.threads[t].pc, ViewOf(s, t), ch);
      var (pc', cmd) := Act(c, s, t, ch);
      MoveConfined(s, t, pc', cmd);
    case Begin(k, job) =>
      var s' := Apply(c, s, e);
      assert forall u | 0 <= u < |s.threads| :: s'.threads[u] == s.threads[u];
    case _ =>
      assert Apply(c, s, e).threads == s.threads;
  }

  lemma {:induction false} RunConfined(c: Config, r: Run)
    requires c.lang.Go? && IsRun(c, r) && ShimRun(r)
    ensures Confined(Last(r))
  {
    match r
    case Start(_) =>
    case Then(p, e, _) =>
      RunConfined(c, p);
      RunGood(c, p);
      StepConfined(c, Last(p), e);
  }

  /** Step e invokes generator g. */
  predicate Invokes(s: State, e: Event, g: Generator) {
    e.Step? && e.tid < |s.threads| && (s.threads[e.tid].pc.GenReady? || s.threads[e.tid].pc.FreeReady?)
    && GeneratorOf(s.threads[e.tid].job) == Some(g)
  }

  /** Generator lifetime.  On every run of calls made through the shim, under every policy, a per-call
      generator is invoked only by the call it was passed to, and never after that call has returned. */
  lemma {:induction false} NeverAfterReturn(c: Config, r: Run, e: Event, g: Generator, t: Tid)
    requires c.lang.Go? && IsRun(c, r) && ShimRun(r) && Enabled(c, Last(r), e)
    requires g.PerCall? && Invokes(Last(r), e, g)
    requires t < |Last(r).threads| && Last(r).threads[t].job.Call? && Last(r).threads[t].job.req.gen == Some(g)
    ensures e.tid == t && !Last(r).threads[t].pc.Done?
  {
    RunConfined(c, r);
  }

  // ---------------------------------------------------------------------------------------------
  // Generators that are never handed over
  // ---------------------------------------------------------------------------------------------

  function Invocations(r: Run, g: Generator): nat {
    match r
    case Start(_) => 0
    case Then(p, e, _) => Invocations(p, g) + if Invokes(Last(p), e, g) then 1 else 0
  }

  /** Some call of the run was made with generator g. */
  predicate Carried(r: Run, g: Generator) {
    r.Then? && (Carried(r.prev, g) || (r.event.Begin? && GeneratorOf(r.event.job) == Some(g)))
  }

  lemma LocalGenerator(c: Config, job: Job, pc: PC, v: View, ch: Choice)
    requires Shape(c, job, pc) && Can(c, pc, v, ch)
    ensures var cmd := Local(c, job, pc, v, ch).1;
            cmd.Spawn? ==> GeneratorOf(cmd.job).None? || GeneratorOf(cmd.job) == GeneratorOf(job)
  {
  }

  /** A thread only ever has a generator that some call was made with. */
  lemma {:induction false} HeldIsCarried(c: Config, r: Run, g: Generator, t: Tid)
    requires IsRun(c, r) && t < |Last(r).threads| && GeneratorOf(Last(r).threads[t].job) == Some(g)
    ensures Carried(r, g)
  {
    if r.Then? {
      var s := Last(r.prev);
      RunGood(c, r.prev);
      match r.event {
        case Step(u, ch) =>
          GoodShape(c, s, u);
          LocalGenerator(c, s.threads[u].job, s.threads[u].pc, ViewOf(s, u), ch);
          var (pc', cmd) := Act(c, s, u, ch);
          MoveFrame(s, u, pc', cmd);
          HeldIsCarried(c, r.prev, g, if t < |s.threads| then t else u);
        case _ =>
          if t < |s.threads| { HeldIsCarried(c, r.prev, g, t); }
      }
    }
  }

  /** A generator that no call was made with is never invoked. */
  lemma {:induction false} UncarriedNeverInvoked(c: Config, r: Run, g: Generator)
    requires IsRun(c, r) && !Carried(r, g)
    ensures Invocations(r, g) == 0
  {
    if r.Then? {
      UncarriedNeverInvoked(c, r.prev, g);
      if Invokes(Last(r.prev), r.event, g) { HeldIsCarried(c, r.prev, g, r.event.tid); }
    }
  }

  // ---------------------------------------------------------------------------------------------
  // Sessions of one handle
  // ---------------------------------------------------------------------------------------------

  /** What happens to one handle: its generator is registered or cleared, a call is made, or the library
      does anything but start a call. */
  datatype ShimOp = Register(present: bool) | Ask(key: Key, call: nat, req: Request) | Library(event: Event)

  datatype Session = Opened | Did(prev: Session, op: ShimOp)

  predicate HasGenerator(s: Session) {
    s.Did? && if s.op.Register? then s.op.present else HasGenerator(s.prev)
  }

  /** r is the run of the handler behind handle h in session s: every call makes the request that
      `Registry.Choose` makes at that moment. */
  predicate RunsIn(h: int, s: Session, r: Run) {
    match s
    case Opened => r.Start?
    case Did(p, Register(_)) => RunsIn(h, p, r)
    case Did(p, Ask(k, n, req)) =>
      r.Then? && r.event == Begin(k, Call(Chosen(h, HasGenerator(p), n, req))) && RunsIn(h, p, r.prev)
    case Did(p, Library(e)) => r.Then? && r.event == e && !(e.Begin? && e.job.Call?) && RunsIn(h, p, r.prev)
  }

  /** Call n was made while a generator was registered (or while none was). */
  predicate AskedWith(s: Session, n: nat, registered: bool) {
    s.Did? &&
    (AskedWith(s.prev, n, registered) || (s.op.Ask? && s.op.call == n && HasGenerator(s.prev) == registered))
  }

  /** Every call has its own generator callback. */
  predicate OwnGenerators(s: Session) {
    s.Did? ==>
      OwnGenerators(s.prev) &&
      (s.op.Ask? ==> !AskedWith(s.prev, s.op.call, true) && !AskedWith(s.prev, s.op.call, false))
  }

  lemma {:induction false} CarriedIsLent(c: Config, h: int, s: Session, r: Run, n: nat)
    requires IsRun(c, r) && RunsIn(h, s, r) && Carried(r, PerCall(n))
    ensures AskedWith(s, n, false)
  {
    match s.op
    case Register(_) => CarriedIsLent(c, h, s.prev, r, n);
    case _ => if Carried(r.prev, PerCall(n)) { CarriedIsLent(c, h, s.prev, r.prev, n); }
  }

  lemma {:induction false} AskedOnce(s: Session, n: nat)
    requires OwnGenerators(s) && AskedWith(s, n, true)
    ensures !AskedWith(s, n, false)
  {
    if AskedWith(s.prev, n, true) { AskedOnce(s.prev, n); }
  }

  /** The runs of sessions are the runs `NeverAfterReturn` speaks about. */
  lemma {:induction false} SessionIsShimRun(c: Config, h: int, s: Session, r: Run)
    requires IsRun(c, r) && RunsIn(h, s, r) && OwnGenerators(s)
    ensures ShimRun(r)
  {
    match s
    case Opened =>
    case Did(p, Register(_)) => SessionIsShimRun(c, h, p, r);
    case Did(p, Library(_)) => SessionIsShimRun(c, h, p, r.prev);
    case Did(p, Ask(_, n, req)) =>
      SessionIsShimRun(c, h, p, r.prev);
      var ths := Last(r.prev).threads;
      if !HasGenerator(p) {
        forall t | 0 <= t < |ths| ensures GeneratorOf(ths[t].job) != Some(PerCall(n)) {
          if GeneratorOf(ths[t].job) == Some(PerCall(n)) {
            HeldIsCarried(c, r.prev, PerCall(n), t);
            CarriedIsLent(c, h, p, r.prev, n);
          }
        }
      }
  }

  /** Registered generators replace per-call ones.  On every run of a handle's session, the generator of a
      call made while a generator was registered is never invoked, by that call or any other. */
  lemma {:induction false} RegisteredReplaces(c: Config, h: int, s: Session, r: Run, n: nat)
    requires IsRun(c, r) && RunsIn(h, s, r) && OwnGenerators(s) && AskedWith(s, n, true)
    ensures Invocations(r, PerCall(n)) == 0
  {
    AskedOnce(s, n);
    if Carried(r, PerCall(n)) { CarriedIsLent(c, h, s, r, n); }
    UncarriedNeverInvoked(c, r, PerCall(n));
  }
}
