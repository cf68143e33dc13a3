/** What a caller may be handed: linearisation, bounded staleness and provenance over whole runs. */
module Reads {
  import opened Vocabulary
  import opened Protocol
  import opened Locking
  import opened Stampede

  /** Thread t has been started and has not returned. */
  predicate InProgress(s: State, t: Tid) {
    t < |s.threads| && !s.threads[t].pc.Done?
  }

  // ---------------------------------------------------------------------------------------------
  // Linearisation
  // ---------------------------------------------------------------------------------------------

  /** At some instant of the run at which t was in progress, the main entry of k was live with value x. */
  ghost predicate SawMain(r: Run, t: Tid, k: Key, x: Value) {
    (InProgress(Last(r), t) && Read(At(Last(r), k).main, Last(r).now) == Some(x))
    || (r.Then? && SawMain(r.prev, t, k, x))
  }

  /** The same for the shadow entry. */
  ghost predicate SawShadow(r: Run, t: Tid, k: Key, x: Value) {
    (InProgress(Last(r), t) && Read(At(Last(r), k).shadow, Last(r).now) == Some(x))
    || (r.Then? && SawShadow(r.prev, t, k, x))
  }

  function MainValue(out: Outcome): Option<Value> {
    match out case Cached(x) => Some(x) case Filled(x) => Some(x) case _ => None
  }

  /** The value a call is going to return (or has returned) as the content of the main entry. */
  function Promise(job: Job, pc: PC): Option<Value> {
    if !job.Call? then None else
    match pc
    case Trigger(x) => Some(x)
    case Gate(x) => Some(x)
    case PutShadow(x) => Some(x)
    case Record(x) => Some(x)
    case Unlock(out) => MainValue(out)
    case Stamp(out) => MainValue(out)
    case Done(out) => MainValue(out)
    case _ => None
  }

  function StalePromise(pc: PC): Option<Value> {
    match pc
    case Stamp(Stale(x)) => Some(x)
    case Done(Stale(x)) => Some(x)
    case _ => None
  }

  predicate PromiseLaw(job: Job, pc: PC, v: View, pc': PC, cmd: Cmd) {
    && (Promise(job, pc').Some? && Promise(job, pc') != Promise(job, pc) ==>
          Promise(job, pc') == v.main
          || (cmd.SetMain? && Promise(job, pc') == Some(cmd.entry.value)
              && Alive(Some(cmd.entry), v.now) && !pc'.Done?))
    && (StalePromise(pc').Some? && StalePromise(pc') != StalePromise(pc) ==> StalePromise(pc') == v.shadow)
    && (cmd.Spawn? ==> !cmd.job.Call? && StalePromise(InitialPc(cmd.job)).None?)
  }

  lemma LockedPromise(c: Config, r: Request, pc: PC, v: View, ch: Choice)
    requires Shape(c, Call(r), pc) && Can(c, pc, v, ch) && Holds(Call(r), pc)
    ensures var (pc', cmd) := Local(c, Call(r), pc, v, ch); PromiseLaw(Call(r), pc, v, pc', cmd)
  {
  }

  lemma FreePromise(c: Config, r: Request, pc: PC, v: View, ch: Choice)
    requires Shape(c, Call(r), pc) && Can(c, pc, v, ch) && !Holds(Call(r), pc)
    ensures var (pc', cmd) := Local(c, Call(r), pc, v, ch); PromiseLaw(Call(r), pc, v, pc', cmd)
  {
  }

  lemma OtherPromise(c: Config, job: Job, pc: PC, v: View, ch: Choice)
    requires !job.Call? && Shape(c, job, pc) && Can(c, pc, v, ch)
    ensures var (pc', cmd) := Local(c, job, pc, v, ch); PromiseLaw(job, pc, v, pc', cmd)
  {
  }

  lemma LocalPromise(c: Config, job: Job, pc: PC, v: View, ch: Choice)
    requires Shape(c, job, pc) && Can(c, pc, v, ch)
    ensures var (pc', cmd) := Local(c, job, pc, v, ch); PromiseLaw(job, pc, v, pc', cmd)
  {
    hide Local;
    hide Shape;
    hide Can;
    hide PromiseLaw;
    if job.Call? {
      if Holds(job, pc) { LockedPromise(c, job.req, pc, v, ch); } else { FreePromise(c, job.req, pc, v, ch); }
    } else {
      OtherPromise(c, job, pc, v, ch);
    }
  }

  /** What thread t holds was seen, after a move of thread u. */
  ghost predicate Seen(r: Run, t: Tid)
    requires t < |Last(r).threads|
  {
    var th := Last(r).threads[t];
    && (Promise(th.job, th.pc).Some? ==> SawMain(r, t, th.key, Promise(th.job, th.pc).value))
    && (StalePromise(th.pc).Some? ==> SawShadow(r, t, th.key, StalePromise(th.pc).value))
  }

  lemma MoveSeen(c: Config, r: Run, u: Tid, pc': PC, cmd: Cmd, v: View, t: Tid)
    requires r.Then? && u < |Last(r.prev).threads| && !Last(r.prev).threads[u].pc.Done?
    requires v == ViewOf(Last(r.prev), u) && r.state == Move(Last(r.prev), u, pc', cmd) && t < |r.state.threads|
    requires PromiseLaw(Last(r.prev).threads[u].job, Last(r.prev).threads[u].pc, v, pc', cmd)
    requires t < |Last(r.prev).threads| ==> Seen(r.prev, t)
    ensures Seen(r, t)
  {
    MoveFrame(Last(r.prev), u, pc', cmd);
  }

  lemma {:induction false} Kept(c: Config, r: Run, t: Tid)
    requires IsRun(c, r) && t < |Last(r).threads|
    ensures Seen(r, t)
  {
    hide Local;
    hide PromiseLaw;
    hide Good;
    match r
    case Start(_) =>
    case Then(p, e, s') =>
      var s := Last(p);
      RunGood(c, p);
      if t < |s.threads| { Kept(c, p, t); }
      match e {
        case Step(u, ch) =>
          var th, v := s.threads[u], ViewOf(s, u);
          GoodShape(c, s, u);
          LocalPromise(c, th.job, th.pc, v, ch);
          var (pc', cmd) := Act(c, s, u, ch);
          MoveSeen(c, r, u, pc', cmd, v, t);
        case _ =>
          if t < |s.threads| { assert s'.threads[t] == s.threads[t]; }
      }
  }

  /** Linearisation.  A plain hit, a dedup hit, and everything returned from under the key lock was the
      key's live value at some instant between the start and the return of that very call; a stale
      answer was the shadow's live value at such an instant. */
  lemma Linearised(c: Config, r: Run, t: Tid, x: Value)
    requires IsRun(c, r) && t < |Last(r).threads| && Last(r).threads[t].job.Call?
    ensures Last(r).threads[t].pc == Done(Cached(x)) || Last(r).threads[t].pc == Done(Filled(x))
            ==> SawMain(r, t, Last(r).threads[t].key, x)
    ensures Last(r).threads[t].pc == Done(Stale(x)) ==> SawShadow(r, t, Last(r).threads[t].key, x)
  {
    Kept(c, r, t);
  }

  // ---------------------------------------------------------------------------------------------
  // Bounded staleness
  // ---------------------------------------------------------------------------------------------

  /** A lifetime ttl counted from w has not run out at n; without a positive ttl it never does. */
  predicate Within(w: Time, ttl: int, n: Time) {
    ttl > 0 ==> n < w + ttl
  }

  /** Step e stores x in the main entry of k with a lifetime that lasts beyond n. */
  predicate StoresMain(c: Config, s: State, e: Event, k: Key, x: Value, n: Time) {
    || (Writes(c, s, e, k) && s.threads[e.tid].pc.value == x && Within(s.now, Ttl(s.threads[e.tid].job), n))
    || (e.Foreign? && e.key == k && e.value == x && Within(s.now, e.ttl, n))
  }

  function ShadowTtl(c: Config, job: Job): int {
    if job.StaleRefresh? then c.staleTtl else Ttl(job) + c.staleTtl
  }

  /** Step e writes the shadow entry of k. */
  predicate WritesShadow(s: State, e: Event, k: Key) {
    e.Step? && e.tid < |s.threads| && s.threads[e.tid].key == k && s.threads[e.tid].pc.PutShadow? && e.choice.Ok?
  }

  predicate StoresShadow(c: Config, s: State, e: Event, k: Key, x: Value, n: Time) {
    || (WritesShadow(s, e, k) && s.threads[e.tid].pc.value == x
        && Within(s.now, ShadowTtl(c, s.threads[e.tid].job), n))
    || (e.ForeignShadow? && e.key == k && e.value == x && Within(s.now, e.ttl, n))
  }

  /** x was put into the main entry of k, by the run or before it, for a lifetime lasting beyond n. */
  ghost predicate MainWrittenFor(c: Config, r: Run, k: Key, x: Value, n: Time) {
    match r
    case Start(s) => Read(At(s, k).main, n) == Some(x)
    case Then(p, e, _) => MainWrittenFor(c, p, k, x, n) || StoresMain(c, Last(p), e, k, x, n)
  }

  ghost predicate ShadowWrittenFor(c: Config, r: Run, k: Key, x: Value, n: Time) {
    match r
    case Start(s) => Read(At(s, k).shadow, n) == Some(x)
    case Then(p, e, _) => ShadowWrittenFor(c, p, k, x, n) || StoresShadow(c, Last(p), e, k, x, n)
  }

  predicate StoreLaw(c: Config, job: Job, pc: PC, v: View, ch: Choice, cmd: Cmd) {
    && (cmd.SetMain? ==> pc.Put? && SetLands(c, job, ch) && cmd.entry == Fresh(pc.value, v.now, Ttl(job)))
    && (cmd.SetShadow? ==> pc.PutShadow? && ch.Ok? && cmd.entry == Fresh(pc.value, v.now, ShadowTtl(c, job)))
  }

  lemma LocalStore(c: Config, job: Job, pc: PC, v: View, ch: Choice)
    requires Shape(c, job, pc) && Can(c, pc, v, ch)
    ensures var (pc', cmd) := Local(c, job, pc, v, ch); StoreLaw(c, job, pc, v, ch, cmd)
  {
  }

  lemma MoveStore(c: Config, s: State, t: Tid, ch: Choice, v: View, pc': PC, cmd: Cmd, k: Key, x: Value, n: Time)
    requires t < |s.threads| && v == ViewOf(s, t)
    requires StoreLaw(c, s.threads[t].job, s.threads[t].pc, v, ch, cmd)
    ensures var s', e := Move(s, t, pc', cmd), Step(t, ch);
            (Read(At(s', k).main, n) == Some(x) ==>
               Read(At(s, k).main, n) == Some(x) || StoresMain(c, s, e, k, x, n)) &&
            (Read(At(s', k).shadow, n) == Some(x) ==>
               Read(At(s, k).shadow, n) == Some(x) || StoresShadow(c, s, e, k, x, n))
  {
    MoveFrame(s, t, pc', cmd);
  }

  /** An entry that is readable after a step was readable before it or is stored by it. */
  lemma {:induction false} StepStore(c: Config, s: State, e: Event, k: Key, x: Value, n: Time)
    requires Good(c, s) && Enabled(c, s, e)
    ensures var s' := Apply(c, s, e);
            (Read(At(s', k).main, n) == Some(x) ==>
               Read(At(s, k).main, n) == Some(x) || StoresMain(c, s, e, k, x, n)) &&
            (Read(At(s', k).shadow, n) == Some(x) ==>
               Read(At(s, k).shadow, n) == Some(x) || StoresShadow(c, s, e, k, x, n))
  {
    match e
    case Step(t, ch) =>
      var th, v := s.threads[t], ViewOf(s, t);
      LocalStore(c, th.job, th.pc, v, ch);
      var (pc', cmd) := Act(c, s, t, ch);
      MoveStore(c, s, t, ch, v, pc', cmd, k, x, n);
    case _ =>
  }

  lemma {:induction false} EntriesWritten(c: Config, r: Run, k: Key, x: Value, n: Time)
    requires IsRun(c, r)
    ensures Read(At(Last(r), k).main, n) == Some(x) ==> MainWrittenFor(c, r, k, x, n)
    ensures Read(At(Last(r), k).shadow, n) == Some(x) ==> ShadowWrittenFor(c, r, k, x, n)
  {
    match r
    case Start(_) =>
    case Then(p, e, s') =>
      EntriesWritten(c, p, k, x, n);
      RunGood(c, p);
      StepStore(c, Last(p), e, k, x, n);
  }

  /** At some instant at which t was in progress k's live main value was x, and x had been written with
      a lifetime that had not run out at that instant. */
  ghost predicate ServedMain(c: Config, r: Run, t: Tid, k: Key, x: Value) {
    (InProgress(Last(r), t) && Read(At(Last(r), k).main, Last(r).now) == Some(x)
     && MainWrittenFor(c, r, k, x, Last(r).now))
    || (r.Then? && ServedMain(c, r.prev, t, k, x))
  }

  ghost predicate ServedShadow(c: Config, r: Run, t: Tid, k: Key, x: Value) {
    (InProgress(Last(r), t) && Read(At(Last(r), k).shadow, Last(r).now) == Some(x)
     && ShadowWrittenFor(c, r, k, x, Last(r).now))
    || (r.Then? && ServedShadow(c, r.prev, t, k, x))
  }

  lemma {:induction false} SawIsServed(c: Config, r: Run, t: Tid, k: Key, x: Value)
    requires IsRun(c, r)
    ensures SawMain(r, t, k, x) ==> ServedMain(c, r, t, k, x)
    ensures SawShadow(r, t, k, x) ==> ServedShadow(c, r, t, k, x)
  {
    EntriesWritten(c, r, k, x, Last(r).now);
    if r.Then? { SawIsServed(c, r.prev, t, k, x); }
  }

  /** Bounded staleness, with mixed per-call lifetimes.  A value answered from the main entry was
      written less than that write's ttl before the instant of the read; one answered from the shadow
      less than ttl + stale_ttl (in Go's stale rewrite: stale_ttl) before it. */
  lemma BoundedStaleness(c: Config, r: Run, t: Tid, x: Value)
    requires IsRun(c, r) && t < |Last(r).threads| && Last(r).threads[t].job.Call?
    ensures Last(r).threads[t].pc == Done(Cached(x)) ==> ServedMain(c, r, t, Last(r).threads[t].key, x)
    ensures Last(r).threads[t].pc == Done(Stale(x)) ==> ServedShadow(c, r, t, Last(r).threads[t].key, x)
  {
    Linearised(c, r, t, x);
    SawIsServed(c, r, t, Last(r).threads[t].key, x);
  }

  // ---------------------------------------------------------------------------------------------
  // Provenance
  // ---------------------------------------------------------------------------------------------

  /** x belongs to k: it was stored for k before the run, set for k directly or by another process, or
      produced by a generator call made for k. */
  ghost predicate Origin(r: Run, k: Key, x: Value) {
    match r
    case Start(s) => Stored(At(s, k).main, x) || Stored(At(s, k).shadow, x)
    case Then(p, e, _) => Origin(p, k, x) || Introduces(Last(p), e, k, x)
  }

  predicate Stored(e: Option<Entry>, x: Value) {
    e.Some? && e.value.value == x
  }

  predicate Introduces(s: State, e: Event, k: Key, x: Value) {
    match e
    case Begin(q, Assign(y, _)) => q == k && y == x
    case Foreign(q, y, _) => q == k && y == x
    case ForeignShadow(q, y, _) => q == k && y == x
    case Step(t, Yield(y)) => t < |s.threads| && s.threads[t].key == k && y == x
    case _ => false
  }

  function OutcomeValue(out: Outcome): Option<Value> {
    match out
    case Cached(x) => Some(x)
    case Stale(x) => Some(x)
    case Filled(x) => Some(x)
    case Generated(x) => Some(x)
    case _ => None
  }

  predicate Carries(th: Thread, x: Value) {
    || (match th.pc
        case Trigger(y) => y == x
        case Gate(y) => y == x
        case Put(y) => y == x
        case PutShadow(y) => y == x
        case Record(y) => y == x
        case Handoff(y) => y == x
        case Unlock(out) => OutcomeValue(out) == Some(x)
        case Stamp(out) => OutcomeValue(out) == Some(x)
        case Done(out) => OutcomeValue(out) == Some(x)
        case _ => false)
    || (th.job.WriteBack? && th.job.value == x)
  }

  /** x is stored for k or carried by a thread of k. */
  ghost predicate Present(s: State, k: Key, x: Value) {
    || Stored(At(s, k).main, x)
    || Stored(At(s, k).shadow, x)
    || exists t :: 0 <= t < |s.threads| && s.threads[t].key == k && Carries(s.threads[t], x)
  }

  predicate CarryLaw(th: Thread, v: View, ch: Choice, pc': PC, cmd: Cmd, x: Value) {
    && (Carries(th.(pc := pc'), x) ==> Carries(th, x) || v.main == Some(x) || v.shadow == Some(x) || ch == Yield(x))
    && (cmd.SetMain? || cmd.SetShadow? ==> Carries(th, cmd.entry.value))
    && (cmd.Spawn? ==> Worker(cmd.job) && (cmd.job.WriteBack? ==> Carries(th, cmd.job.value)))
  }

  lemma CallCarry(c: Config, th: Thread, v: View, ch: Choice, x: Value)
    requires th.job.Call? && Shape(c, th.job, th.pc) && Can(c, th.pc, v, ch)
    ensures var (pc', cmd) := Local(c, th.job, th.pc, v, ch); CarryLaw(th, v, ch, pc', cmd, x)
  {
  }

  lemma OtherCarry(c: Config, th: Thread, v: View, ch: Choice, x: Value)
    requires !th.job.Call? && Shape(c, th.job, th.pc) && Can(c, th.pc, v, ch)
    ensures var (pc', cmd) := Local(c, th.job, th.pc, v, ch); CarryLaw(th, v, ch, pc', cmd, x)
  {
  }

  lemma LocalCarry(c: Config, th: Thread, v: View, ch: Choice, x: Value)
    requires Shape(c, th.job, th.pc) && Can(c, th.pc, v, ch)
    ensures var (pc', cmd) := Local(c, th.job, th.pc, v, ch); CarryLaw(th, v, ch, pc', cmd, x)
  {
    hide Local;
    hide Shape;
    hide Can;
    hide CarryLaw;
    if th.job.Call? {
      CallCarry(c, th, v, ch, x);
    } else {
      OtherCarry(c, th, v, ch, x);
    }
  }

  lemma MovePresent(s: State, t: Tid, ch: Choice, v: View, pc': PC, cmd: Cmd, k: Key, x: Value)
    requires t < |s.threads| && v == ViewOf(s, t)
    requires CarryLaw(s.threads[t], v, ch, pc', cmd, x)
    requires Present(Move(s, t, pc', cmd), k, x)
    ensures Present(s, k, x) || Introduces(s, Step(t, ch), k, x)
  {
    MoveFrame(s, t, pc', cmd);
    var s', th := Move(s, t, pc', cmd), s.threads[t];
    if th.key != k || Carries(th, x) || Stored(At(s, k).main, x) || Stored(At(s, k).shadow, x) {
      if u :| 0 <= u < |s.threads| && u != t && s'.threads[u].key == k && Carries(s'.threads[u], x) {
        assert s.threads[u] == s'.threads[u];
      }
    } else if u :| 0 <= u < |s'.threads| && s'.threads[u].key == k && Carries(s'.threads[u], x) {
      if u < |s.threads| && u != t { assert s.threads[u] == s'.threads[u]; }
      else if u == t { assert Carries(th.(pc := pc'), x); }
    }
  }

  lemma {:induction false} StepPresent(c: Config, s: State, e: Event, k: Key, x: Value)
    requires Good(c, s) && Enabled(c, s, e) && Present(Apply(c, s, e), k, x)
    ensures Present(s, k, x) || Introduces(s, e, k, x)
  {
    match e
    case Step(t, ch) =>
      var th, v := s.threads[t], ViewOf(s, t);
      LocalCarry(c, th, v, ch, x);
      var (pc', cmd) := Act(c, s, t, ch);
      MovePresent(s, t, ch, v, pc', cmd, k, x);
    case Begin(q, job) =>
      var s' := Apply(c, s, e);
      if u :| 0 <= u < |s'.threads| && s'.threads[u].key == k && Carries(s'.threads[u], x) {
        if u < |s.threads| { assert s.threads[u] == s'.threads[u]; }
      }
    case _ =>
  }

  /** Provenance and key separation: whatever is stored for k, and whatever a thread of k holds or has
      returned, belongs to k. */
  lemma {:induction false} Provenance(c: Config, r: Run, k: Key, x: Value)
    requires IsRun(c, r) && Present(Last(r), k, x)
    ensures Origin(r, k, x)
  {
    match r
    case Start(_) =>
    case Then(p, e, s') =>
      RunGood(c, p);
      StepPresent(c, Last(p), e, k, x);
      if Present(Last(p), k, x) { Provenance(c, p, k, x); }
  }
}
