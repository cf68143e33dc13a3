/** The refresh cooldown over whole runs. */
module Cooldown {
  import opened Vocabulary
  import opened Protocol
  import opened Locking

  /** Step e records a write of k in the in-process timestamp map. */
  predicate Notes(c: Config, s: State, e: Event, k: Key) {
    e.Step? && e.tid < |s.threads| && s.threads[e.tid].key == k && (c.cooldown > 0 || c.dedup > 0) &&
    (s.threads[e.tid].pc.Record? || (s.threads[e.tid].pc.Stamp? && c.lang.Python?))
  }

  /** Step e completes a background refresh of k: the worker records the write it has just made. */
  predicate Refreshes(s: State, e: Event, k: Key) {
    e.Step? && e.tid < |s.threads| && s.threads[e.tid].key == k &&
    s.threads[e.tid].job.Refresh? && s.threads[e.tid].pc.Record?
  }

  /** A write of k was recorded at time w. */
  ghost predicate NotedAt(c: Config, r: Run, k: Key, w: Time) {
    r.Then? && (NotedAt(c, r.prev, k, w) || (Notes(c, Last(r.prev), r.event, k) && Last(r.prev).now == w))
  }

  /** w is the time of a recorded write of k. */
  ghost predicate Recorded(c: Config, r: Run, k: Key, w: Time) {
    NotedAt(c, r, k, w)
  }

  /** When the latest background refresh of k was completed. */
  function LatestRefresh(r: Run, k: Key): Option<Time> {
    match r
    case Start(_) => None
    case Then(p, e, _) => if Refreshes(Last(p), e, k) then Some(Last(p).now) else LatestRefresh(p, k)
  }

  /** The background refreshes of k completed between a and b. */
  function RefreshCount(r: Run, k: Key, a: Time, b: Time): nat {
    match r
    case Start(_) => 0
    case Then(p, e, _) =>
      RefreshCount(p, k, a, b) + if Refreshes(Last(p), e, k) && a <= Last(p).now <= b then 1 else 0
  }

  /** A refresh worker that passed the cooldown test and has not recorded its write. */
  predicate Refreshing(job: Job, pc: PC) {
    job.Refresh? && (pc.GenReady? || pc.Gen? || pc.Put? || pc.PutShadow? || pc.Record?)
  }

  /** m is the time of the latest completed refresh of k. */
  ghost predicate Cold(c: Config, s: State, k: Key, m: Option<Time>) {
    && (At(s, k).last.Some? ==> At(s, k).last.value <= s.now)
    && (m.Some? ==> At(s, k).last.Some? && m.value <= At(s, k).last.value)
    && (forall t | 0 <= t < |s.threads| && s.threads[t].key == k && Refreshing(s.threads[t].job, s.threads[t].pc) ::
          s.threads[t].passed <= s.now && (m.Some? ==> s.threads[t].passed - m.value >= c.cooldown))
  }

  predicate CoolLaw(c: Config, job: Job, pc: PC, v: View, pc': PC, cmd: Cmd) {
    && (cmd.Note? <==> Records(c) && (pc.Record? || (pc.Stamp? && c.lang.Python?)))
    && (Refreshing(job, pc') ==>
          (pc.Cool? && pc'.GenReady? && Cooled(c, v)) || (Refreshing(job, pc) && !pc.Record? && !pc.Cool?))
    && (cmd.Spawn? ==> !Refreshing(cmd.job, InitialPc(cmd.job)))
  }

  lemma LocalCool(c: Config, job: Job, pc: PC, v: View, ch: Choice)
    requires Shape(c, job, pc) && Can(c, pc, v, ch)
    ensures var (pc', cmd) := Local(c, job, pc, v, ch); CoolLaw(c, job, pc, v, pc', cmd)
  {
  }

  lemma MoveCold(c: Config, s: State, t: Tid, ch: Choice, v: View, pc': PC, cmd: Cmd, k: Key, m: Option<Time>)
    requires c.cooldown > 0 && Locked(s) && t < |s.threads| && v == ViewOf(s, t) && Cold(c, s, k, m)
    requires CoolLaw(c, s.threads[t].job, s.threads[t].pc, v, pc', cmd)
    ensures Cold(c, Move(s, t, pc', cmd), k, if Refreshes(s, Step(t, ch), k) then Some(s.now) else m)
  {
    MoveFrame(s, t, pc', cmd);
    var s', m' := Move(s, t, pc', cmd), if Refreshes(s, Step(t, ch), k) then Some(s.now) else m;
    assert s'.threads[t] == Advance(s.threads[t], pc', s.now);
    forall u | 0 <= u < |s'.threads| && s'.threads[u].key == k && Refreshing(s'.threads[u].job, s'.threads[u].pc)
      ensures s'.threads[u].passed <= s'.now && (m'.Some? ==> s'.threads[u].passed - m'.value >= c.cooldown)
    {
      if u < |s.threads| && u != t {
        assert s'.threads[u] == s.threads[u];
        assert Holds(s.threads[u].job, s.threads[u].pc);
      }
    }
  }

  lemma {:induction false} StepCold(c: Config, s: State, e: Event, k: Key, m: Option<Time>)
    requires c.cooldown > 0 && Good(c, s) && Enabled(c, s, e) && Cold(c, s, k, m)
    ensures Cold(c, Apply(c, s, e), k, if Refreshes(s, e, k) then Some(s.now) else m)
  {
    match e
    case Step(t, ch) =>
      var th, v := s.threads[t], ViewOf(s, t);
      LocalCool(c, th.job, th.pc, v, ch);
      var (pc', cmd) := Act(c, s, t, ch);
      MoveCold(c, s, t, ch, v, pc', cmd, k, m);
    case Begin(q, job) =>
      assert forall u | 0 <= u < |s.threads| :: Apply(c, s, e).threads[u] == s.threads[u];
    case _ =>
      assert Apply(c, s, e).threads == s.threads;
  }

  lemma {:induction false} RunCold(c: Config, r: Run, k: Key)
    requires c.cooldown > 0 && IsRun(c, r)
    ensures Cold(c, Last(r), k, LatestRefresh(r, k))
  {
    match r
    case Start(_) =>
    case Then(p, e, s) =>
      RunCold(c, p, k);
      RunGood(c, p);
      StepCold(c, Last(p), e, k, LatestRefresh(p, k));
  }

  lemma {:induction false} StepNotes(c: Config, s: State, e: Event, k: Key)
    requires Good(c, s) && Enabled(c, s, e)
    ensures At(Apply(c, s, e), k).last == if Notes(c, s, e, k) then Some(s.now) else At(s, k).last
  {
    hide Local;
    hide Good;
    match e
    case Step(t, ch) =>
      GoodShape(c, s, t);
      LocalCool(c, s.threads[t].job, s.threads[t].pc, ViewOf(s, t), ch);
      var (pc', cmd) := Act(c, s, t, ch);
      MoveFrame(s, t, pc', cmd);
    case _ =>
  }

  /** The timestamp of a key is the time of its latest recorded write, if there is one. */
  lemma {:induction false} LastNoted(c: Config, r: Run, k: Key)
    requires IsRun(c, r)
    ensures var last := At(Last(r), k).last;
            && (last.Some? ==> NotedAt(c, r, k, last.value) && last.value <= Last(r).now)
            && (forall w: Time :: NotedAt(c, r, k, w) ==> last.Some? && w <= last.value)
  {
    if r.Then? {
      LastNoted(c, r.prev, k);
      RunGood(c, r.prev);
      StepNotes(c, Last(r.prev), r.event, k);
    }
  }

  lemma NotedIsOld(c: Config, r: Run, k: Key, w: Time)
    requires IsRun(c, r) && NotedAt(c, r, k, w)
    ensures var last := At(Last(r), k).last; last.Some? && w <= last.value <= Last(r).now
  {
    LastNoted(c, r, k);
  }

  /** Whether every recorded write lies d back is seen on the timestamp. */
  lemma AllOld(c: Config, r: Run, k: Key, d: int)
    requires IsRun(c, r)
    ensures var last := At(Last(r), k).last;
            (forall w: Time :: Recorded(c, r, k, w) ==> Last(r).now - w >= d)
              <==> d <= 0 || last.None? || Last(r).now - last.value >= d
  {
    LastNoted(c, r, k);
    var last := At(Last(r), k).last;
    if d <= 0 || last.None? || Last(r).now - last.value >= d {
      forall w: Time | Recorded(c, r, k, w) ensures Last(r).now - w >= d { NotedIsOld(c, r, k, w); }
    } else {
      assert Recorded(c, r, k, last.value);
    }
  }

  // ---------------------------------------------------------------------------------------------
  // When a refresh goes ahead, from the recorded history alone
  // ---------------------------------------------------------------------------------------------

  /** The cooldown test of a background refresh, under every configuration: it goes on to its generator if
      and only if every write recorded so far lies at least the cooldown back, and gives up otherwise.  So
      without a cooldown, or without a recorded write, it always goes on. */
  lemma WorkerGoesExactly(c: Config, r: Run, t: Tid)
    requires IsRun(c, r) && t < |Last(r).threads| && Last(r).threads[t].pc.Cool?
    ensures var allOld := forall w: Time :: Recorded(c, r, Last(r).threads[t].key, w) ==> Last(r).now - w >= c.cooldown;
            Act(c, Last(r), t, Ok) == (if allOld then GenReady else Unlock(Quiet), Nop)
  {
    AllOld(c, r, Last(r).threads[t].key, c.cooldown);
  }

  /** The gate of a hit whose trigger has fired, under every configuration: the call answers its value, and
      a background refresh is spawned if and only if every write recorded so far lies at least the cooldown
      back.  Go asks this only under the default policy; its other policies leave it to the worker. */
  lemma GateOpensExactly(c: Config, r: Run, t: Tid)
    requires IsRun(c, r) && t < |Last(r).threads| && Last(r).threads[t].pc.Gate?
    ensures Last(r).threads[t].job.Call?
    ensures var th := Last(r).threads[t];
            var allOld := forall w: Time :: Recorded(c, r, th.key, w) ==> Last(r).now - w >= c.cooldown;
            Act(c, Last(r), t, Ok)
              == (Done(Cached(th.pc.value)),
                  if (c.lang.Go? && !th.job.req.hit.OnHit?) || allOld
                  then Spawn(Refresh(th.job.req.ttl, th.job.req.gen)) else Nop)
  {
    RunGood(c, r);
    GoodShape(c, Last(r), t);
    AllOld(c, r, Last(r).threads[t].key, c.cooldown);
  }

  /** The cooldown test.  A refresh worker goes on to its generator exactly when every write of the key
      recorded so far lies at least the cooldown back. */
  lemma {:induction false} CooldownRespected(c: Config, r: Run, t: Tid, w: Time)
    requires c.cooldown > 0 && IsRun(c, r) && t < |Last(r).threads|
    requires Last(r).threads[t].pc.Cool? && NotedAt(c, r, Last(r).threads[t].key, w)
    ensures Act(c, Last(r), t, Ok).0.GenReady? ==> Last(r).now - w >= c.cooldown
    ensures var last := At(Last(r), Last(r).threads[t].key).last;
            last.Some? && (Act(c, Last(r), t, Ok).0.GenReady? <==> Last(r).now - last.value >= c.cooldown)
  {
    LastNoted(c, r, Last(r).threads[t].key);
  }

  /** A write of k recorded at time w precedes the latest cooldown test of thread t. */
  ghost predicate NotedBeforeTest(c: Config, r: Run, t: Tid, k: Key, w: Time) {
    r.Then? &&
    if r.event.Step? && r.event.tid == t && t < |Last(r.prev).threads| && Last(r.prev).threads[t].pc.Cool?
    then NotedAt(c, r.prev, k, w)
    else NotedBeforeTest(c, r.prev, t, k, w)
  }

  /** One step of a refresh worker that has passed its test: it has just passed it, or had passed it. */
  lemma {:induction false} StepPassed(c: Config, s: State, e: Event, t: Tid)
    requires Good(c, s) && Enabled(c, s, e) && t < |Apply(c, s, e).threads|
    requires var th' := Apply(c, s, e).threads[t]; Refreshing(th'.job, th'.pc)
    ensures t < |s.threads| && Apply(c, s, e).threads[t].key == s.threads[t].key
    ensures var th, th' := s.threads[t], Apply(c, s, e).threads[t];
            if e.Step? && e.tid == t && th.pc.Cool?
            then th'.passed == s.now && Act(c, s, t, Ok).0.GenReady? && e.choice.Ok?
            else th'.passed == th.passed && Refreshing(th.job, th.pc)
  {
    hide Local;
    match e
    case Step(u, ch) =>
      GoodShape(c, s, u);
      LocalCool(c, s.threads[u].job, s.threads[u].pc, ViewOf(s, u), ch);
      var (pc', cmd) := Act(c, s, u, ch);
      MoveFrame(s, u, pc', cmd);
      assert u < |Apply(c, s, e).threads| && Apply(c, s, e).threads[u] == Advance(s.threads[u], pc', s.now);
    case _ =>
  }

  lemma {:induction false} PassedIsCool(c: Config, r: Run, t: Tid, k: Key, w: Time)
    requires c.cooldown > 0 && IsRun(c, r) && t < |Last(r).threads| && Last(r).threads[t].key == k
    requires Refreshing(Last(r).threads[t].job, Last(r).threads[t].pc) && NotedBeforeTest(c, r, t, k, w)
    ensures Last(r).threads[t].passed - w >= c.cooldown
  {
    var p, e, s := r.prev, r.event, Last(r.prev);
    RunGood(c, p);
    StepPassed(c, s, e, t);
    if e.Step? && e.tid == t && s.threads[t].pc.Cool? {
      CooldownRespected(c, p, t, w);
    } else {
      PassedIsCool(c, p, t, k, w);
    }
  }

  /** The cooldown and the generator.  When a background refresh starts its generator, every write of the
      key recorded before its test lies at least the cooldown back. */
  lemma {:induction false} GeneratorIsCool(c: Config, r: Run, t: Tid, w: Time)
    requires c.cooldown > 0 && IsRun(c, r) && t < |Last(r).threads|
    requires Last(r).threads[t].job.Refresh? && Last(r).threads[t].pc.GenReady?
    requires NotedBeforeTest(c, r, t, Last(r).threads[t].key, w)
    ensures Last(r).now - w >= c.cooldown
  {
    RunCold(c, r, Last(r).threads[t].key);
    PassedIsCool(c, r, t, Last(r).threads[t].key, w);
  }

  /** Two completed background refreshes of a key are at least the cooldown apart, whatever direct Sets,
      fills and stale rewrites happen in between. */
  lemma {:induction false} RefreshesAreSpaced(c: Config, r: Run, k: Key)
    requires c.cooldown > 0 && IsRun(c, r) && r.Then? && Refreshes(Last(r.prev), r.event, k)
    requires LatestRefresh(r.prev, k).Some?
    ensures Last(r.prev).now - LatestRefresh(r.prev, k).value >= c.cooldown
  {
    RunCold(c, r.prev, k);
  }

  // ---------------------------------------------------------------------------------------------
  // Counting refreshes in a window
  // ---------------------------------------------------------------------------------------------

  /** The latest refresh of k completed between a and b. */
  function LatestIn(r: Run, k: Key, a: Time, b: Time): Option<Time> {
    match r
    case Start(_) => None
    case Then(p, e, _) =>
      if Refreshes(Last(p), e, k) && a <= Last(p).now <= b then Some(Last(p).now) else LatestIn(p, k, a, b)
  }

  lemma {:induction false} LatestInIsOlder(c: Config, r: Run, k: Key, a: Time, b: Time)
    requires c.cooldown > 0 && IsRun(c, r) && LatestIn(r, k, a, b).Some?
    ensures LatestRefresh(r, k).Some? && LatestIn(r, k, a, b).value <= LatestRefresh(r, k).value
  {
    RunCold(c, r.prev, k);
    if LatestIn(r.prev, k, a, b).Some? { LatestInIsOlder(c, r.prev, k, a, b); }
  }

  lemma {:induction false} WindowInvariant(c: Config, r: Run, k: Key, a: Time, b: Time)
    requires c.cooldown > 0 && IsRun(c, r)
    ensures var m, n := LatestIn(r, k, a, b), RefreshCount(r, k, a, b);
            (m.None? <==> n == 0) &&
            (m.Some? ==> a <= m.value <= b && (n - 1) * c.cooldown <= m.value - a)
  {
    match r
    case Start(_) =>
    case Then(p, e, _) =>
      WindowInvariant(c, p, k, a, b);
      if Refreshes(Last(p), e, k) && a <= Last(p).now <= b && LatestIn(p, k, a, b).Some? {
        LatestInIsOlder(c, p, k, a, b);
        RefreshesAreSpaced(c, r, k);
        var n := RefreshCount(p, k, a, b);
        assert n * c.cooldown == (n - 1) * c.cooldown + c.cooldown;
      }
  }

  lemma DivideByCooldown(n: int, d: int, x: int)
    requires d > 0 && n * d <= x
    ensures n <= x / d
  {
    var q := x / d;
    assert n * d < (q + 1) * d;
  }

  /** The cooldown bound.  Any window of length T sees at most floor(T / cooldown) + 1 completed
      background refreshes of a key. */
  lemma {:induction false} CooldownBound(c: Config, r: Run, k: Key, a: Time, length: nat)
    requires c.cooldown > 0 && IsRun(c, r)
    ensures RefreshCount(r, k, a, a + length) <= length / c.cooldown + 1
  {
    WindowInvariant(c, r, k, a, a + length);
    var n := RefreshCount(r, k, a, a + length);
    if n > 0 { DivideByCooldown(n - 1, c.cooldown, length); }
  }
}
