/** The stale shadow of the Python handler, whose `set` writes the main key and then the shadow key. */
module Shadow {
  import opened Vocabulary
  import opened Protocol
  import opened Locking
  import opened Stampede
  import opened Reads

  /** A lifetime ending at b lasts at least `extra` longer than one ending at a. */
  predicate Outlasts(a: Option<Time>, b: Option<Time>, extra: int) {
    b.None? || (a.Some? && b.value >= a.value + extra)
  }

  /** If there is a main entry, the shadow holds the same value and outlasts it by stale_ttl. */
  predicate Covered(c: Config, slot: Slot) {
    slot.main.Some? ==>
      slot.shadow.Some? && slot.shadow.value.value == slot.main.value.value &&
      Outlasts(slot.main.value.life, slot.shadow.value.life, c.staleTtl)
  }

  /** The lock holder of k is between its two SETs. */
  ghost predicate Midway(s: State, k: Key) {
    var h := At(s, k).holder;
    h.Some? && h.value < |s.threads| && s.threads[h.value].pc.PutShadow?
  }

  /** Writers of k go through the lock and complete both SETs, and nothing removes the shadow alone.
      Deletes of both keys and evictions of the main key may happen at any time. */
  predicate Paired(r: Run, k: Key) {
    match r
    case Start(_) => true
    case Then(p, e, _) => Paired(p, k) && PairedEvent(Last(p), e, k)
  }

  predicate PairedEvent(s: State, e: Event, k: Key) {
    match e
    case Begin(q, job) => q == k ==> !job.Assign?
    case Foreign(q, _, _) => q != k
    case ForeignShadow(q, _, _) => q != k
    case EvictShadow(q) => q != k
    case Step(t, ch) => t < |s.threads| && s.threads[t].key == k && s.threads[t].pc.PutShadow? ==> !ch.Fail?
    case _ => true
  }

  /** Between its two SETs the holder's value is the main value, and the shadow it is about to write
      will outlast it. */
  ghost predicate HalfWritten(s: State, k: Key)
    requires Midway(s, k)
  {
    var th, main := s.threads[At(s, k).holder.value], At(s, k).main;
    Ttl(th.job) > 0 &&
    (main.Some? ==> main.value.value == th.pc.value && main.value.life.Some? &&
                    main.value.life.value <= s.now + Ttl(th.job))
  }

  ghost predicate Consistent(c: Config, s: State, k: Key) {
    && (if Midway(s, k) then HalfWritten(s, k) else Covered(c, At(s, k)))
    && (forall t | 0 <= t < |s.threads| && s.threads[t].key == k :: !s.threads[t].job.Assign?)
  }

  predicate PairLaw(c: Config, job: Job, pc: PC, v: View, ch: Choice, pc': PC, cmd: Cmd) {
    && (cmd.SetMain? ==>
          pc.Put? && Ttl(job) > 0 && cmd.entry == Fresh(pc.value, v.now, Ttl(job)) && pc' == PutShadow(pc.value))
    && (cmd.SetShadow? ==> pc.PutShadow? && cmd.entry == Fresh(pc.value, v.now, Ttl(job) + c.staleTtl))
    && (pc'.PutShadow? ==> cmd.SetMain?)
    && (pc.PutShadow? && !ch.Fail? ==> cmd.SetShadow?)
    && (cmd.SetMain? || cmd.SetShadow? ==> Holds(job, pc) || job.Assign?)
    && (cmd.Spawn? ==> Worker(cmd.job))
  }

  lemma LocalPair(c: Config, job: Job, pc: PC, v: View, ch: Choice)
    requires c.lang.Python? && c.staleTtl > 0
    requires Shape(c, job, pc) && Can(c, pc, v, ch)
    ensures var (pc', cmd) := Local(c, job, pc, v, ch); PairLaw(c, job, pc, v, ch, pc', cmd)
  {
  }

  lemma MoveConsistent(c: Config, s: State, t: Tid, ch: Choice, v: View, pc': PC, cmd: Cmd, k: Key)
    requires c.staleTtl > 0 && Locked(s) && t < |s.threads| && v == ViewOf(s, t) && Consistent(c, s, k)
    requires LockLaw(s.threads[t].job, s.threads[t].pc, v, pc', cmd)
    requires PairLaw(c, s.threads[t].job, s.threads[t].pc, v, ch, pc', cmd)
    requires PairedEvent(s, Step(t, ch), k)
    ensures Consistent(c, Move(s, t, pc', cmd), k)
  {
    MoveFrame(s, t, pc', cmd);
    var s' := Move(s, t, pc', cmd);
    forall u | 0 <= u < |s'.threads| && s'.threads[u].key == k ensures !s'.threads[u].job.Assign? {
      if u < |s.threads| { assert s'.threads[u].job == s.threads[u].job; }
    }
  }

  lemma {:induction false} StepConsistent(c: Config, s: State, e: Event, k: Key)
    requires c.lang.Python? && c.staleTtl > 0 && Good(c, s) && Enabled(c, s, e)
    requires Consistent(c, s, k) && PairedEvent(s, e, k)
    ensures Consistent(c, Apply(c, s, e), k)
  {
    match e
    case Step(t, ch) =>
      var th, v := s.threads[t], ViewOf(s, t);
      LocalLock(c, th.job, th.pc, v, ch);
      LocalPair(c, th.job, th.pc, v, ch);
      var (pc', cmd) := Act(c, s, t, ch);
      MoveConsistent(c, s, t, ch, v, pc', cmd, k);
    case Begin(q, job) =>
      assert forall u | 0 <= u < |s.threads| :: Apply(c, s, e).threads[u] == s.threads[u];
    case _ =>
      assert Apply(c, s, e).threads == s.threads;
  }

  lemma {:induction false} RunConsistent(c: Config, r: Run, k: Key)
    requires c.lang.Python? && c.staleTtl > 0 && IsRun(c, r)
    requires Paired(r, k) && Covered(c, At(First(r), k))
    ensures Consistent(c, Last(r), k)
  {
    match r
    case Start(s) => InitGood(c, s);
    case Then(p, e, _) =>
      RunConsistent(c, p, k);
      RunGood(c, p);
      StepConsistent(c, Last(p), e, k);
  }

  /** The stale-shadow invariant.  Whenever no writer of k is between its two SETs, the main entry has a
      shadow with the same value that outlasts it by stale_ttl; so a live main entry has a live shadow. */
  lemma ShadowCovers(c: Config, r: Run, k: Key)
    requires c.lang.Python? && c.staleTtl > 0 && IsRun(c, r)
    requires Paired(r, k) && Covered(c, At(First(r), k))
    requires !Midway(Last(r), k)
    ensures Covered(c, At(Last(r), k))
    ensures Live(Last(r), k) ==> Read(At(Last(r), k).shadow, Last(r).now) == Read(At(Last(r), k).main, Last(r).now)
  {
    RunConsistent(c, r, k);
  }

  // ---------------------------------------------------------------------------------------------
  // The last completed pair
  // ---------------------------------------------------------------------------------------------

  /** The entry that the latest SET of the main key stored, whatever became of it. */
  function LatestMain(c: Config, r: Run, k: Key): Option<Entry> {
    match r
    case Start(s) => At(s, k).main
    case Then(p, e, _) =>
      if Writes(c, Last(p), e, k) then
        Some(Fresh(Last(p).threads[e.tid].pc.value, Last(p).now, Ttl(Last(p).threads[e.tid].job)))
      else LatestMain(c, p, k)
  }

  /** Step e deletes both entries of k. */
  predicate Deletes(s: State, e: Event, k: Key) {
    e.Step? && e.tid < |s.threads| && s.threads[e.tid].key == k && s.threads[e.tid].pc.Drop? && e.choice.Ok?
  }

  /** The main entry of the latest `set` of k that completed both its SETs and has not been deleted since.
      Expiry and eviction of the main key, and a newer `set` in progress, do not change it. */
  function LatestPair(c: Config, r: Run, k: Key): Option<Entry> {
    match r
    case Start(s) => At(s, k).main
    case Then(p, e, _) =>
      if WritesShadow(Last(p), e, k) then LatestMain(c, p, k)
      else if Deletes(Last(p), e, k) then None
      else LatestPair(c, p, k)
  }

  predicate Shadows(c: Config, pair: Option<Entry>, shadow: Option<Entry>) {
    pair.Some? ==>
      shadow.Some? && shadow.value.value == pair.value.value
      && Outlasts(pair.value.life, shadow.value.life, c.staleTtl)
  }

  /** How the histories latest and pair go with the state of k. */
  ghost predicate Tracked(c: Config, s: State, k: Key, latest: Option<Entry>, pair: Option<Entry>) {
    && Shadows(c, pair, At(s, k).shadow)
    && (At(s, k).main.Some? ==> At(s, k).main == if Midway(s, k) then latest else pair)
    && (Midway(s, k) ==>
          var th := s.threads[At(s, k).holder.value];
          latest.Some? && latest.value.value == th.pc.value && Ttl(th.job) > 0
          && latest.value.life.Some? && latest.value.life.value <= s.now + Ttl(th.job))
  }

  predicate TrackLaw(job: Job, pc: PC, v: View, ch: Choice, pc': PC, cmd: Cmd) {
    && (cmd.SetShadow? <==> pc.PutShadow? && ch.Ok?)
    && (cmd.DelBoth? <==> pc.Drop? && ch.Ok?)
  }

  lemma LocalTrack(c: Config, job: Job, pc: PC, v: View, ch: Choice)
    requires c.lang.Python? && c.staleTtl > 0 && Shape(c, job, pc) && Can(c, pc, v, ch)
    ensures var (pc', cmd) := Local(c, job, pc, v, ch); TrackLaw(job, pc, v, ch, pc', cmd)
    ensures Local(c, job, pc, v, ch).1.SetMain? <==> pc.Put? && SetLands(c, job, ch)
  {
  }

  lemma MoveTracked(c: Config, s: State, t: Tid, ch: Choice, v: View, pc': PC, cmd: Cmd, k: Key,
                    latest: Option<Entry>, pair: Option<Entry>)
    requires c.staleTtl > 0 && Locked(s) && t < |s.threads| && v == ViewOf(s, t)
    requires Consistent(c, s, k) && Tracked(c, s, k, latest, pair)
    requires LockLaw(s.threads[t].job, s.threads[t].pc, v, pc', cmd)
    requires PairLaw(c, s.threads[t].job, s.threads[t].pc, v, ch, pc', cmd)
    requires TrackLaw(s.threads[t].job, s.threads[t].pc, v, ch, pc', cmd)
    requires PairedEvent(s, Step(t, ch), k)
    ensures var mine := s.threads[t].key == k;
            var latest' := if mine && cmd.SetMain? then Some(cmd.entry) else latest;
            var pair' := if mine && cmd.SetShadow? then latest else if mine && cmd.DelBoth? then None else pair;
            Tracked(c, Move(s, t, pc', cmd), k, latest', pair')
  {
    MoveFrame(s, t, pc', cmd);
  }

  lemma {:induction false} StepTracked(c: Config, p: Run, e: Event, k: Key)
    requires c.lang.Python? && c.staleTtl > 0 && IsRun(c, p) && Good(c, Last(p)) && Enabled(c, Last(p), e)
    requires Consistent(c, Last(p), k) && PairedEvent(Last(p), e, k)
    requires Tracked(c, Last(p), k, LatestMain(c, p, k), LatestPair(c, p, k))
    ensures var r := Then(p, e, Apply(c, Last(p), e));
            Tracked(c, Last(r), k, LatestMain(c, r, k), LatestPair(c, r, k))
  {
    var s, r := Last(p), Then(p, e, Apply(c, Last(p), e));
    match e
    case Step(t, ch) =>
      var th, v := s.threads[t], ViewOf(s, t);
      GoodShape(c, s, t);
      LocalLock(c, th.job, th.pc, v, ch);
      LocalPair(c, th.job, th.pc, v, ch);
      LocalTrack(c, th.job, th.pc, v, ch);
      var (pc', cmd) := Act(c, s, t, ch);
      MoveTracked(c, s, t, ch, v, pc', cmd, k, LatestMain(c, p, k), LatestPair(c, p, k));
    case Begin(q, job) =>
      assert forall u | 0 <= u < |s.threads| :: Apply(c, s, e).threads[u] == s.threads[u];
    case _ =>
      assert Apply(c, s, e).threads == s.threads;
  }

  lemma {:induction false} RunTracked(c: Config, r: Run, k: Key)
    requires c.lang.Python? && c.staleTtl > 0 && IsRun(c, r)
    requires Paired(r, k) && Covered(c, At(First(r), k))
    ensures Tracked(c, Last(r), k, LatestMain(c, r, k), LatestPair(c, r, k))
  {
    match r
    case Start(s) => InitGood(c, s);
    case Then(p, e, _) =>
      RunTracked(c, p, k);
      RunConsistent(c, p, k);
      RunGood(c, p);
      StepTracked(c, p, e, k);
  }

  /** The shadow survives its main entry.  Until stale_ttl after the lifetime of the last completed pair,
      the shadow is readable and holds that pair's value: also when the main entry has expired or was
      evicted, and also while a newer pair is half written.  A stored main entry outside such a gap is the
      one of that pair. */
  lemma ShadowOutlives(c: Config, r: Run, k: Key)
    requires c.lang.Python? && c.staleTtl > 0 && IsRun(c, r)
    requires Paired(r, k) && Covered(c, At(First(r), k))
    ensures var pair := LatestPair(c, r, k);
            pair.Some? && (pair.value.life.Some? ==> Last(r).now < pair.value.life.value + c.staleTtl) ==>
              Read(At(Last(r), k).shadow, Last(r).now) == Some(pair.value.value)
    ensures At(Last(r), k).main.Some? && !Midway(Last(r), k) ==> LatestPair(c, r, k) == At(Last(r), k).main
  {
    RunTracked(c, r, k);
  }

  /** Stale-while-revalidate.  A STALE_OR_SYNC call that looks at the shadow in that time answers with the
      value without running the generator, and spawns a background refresh. */
  lemma StaleIsServed(c: Config, r: Run, t: Tid)
    requires c.lang.Python? && c.staleTtl > 0 && IsRun(c, r) && t < |Last(r).threads|
    requires Last(r).threads[t].pc.StaleGet?
    requires Paired(r, Last(r).threads[t].key) && Covered(c, At(First(r), Last(r).threads[t].key))
    requires var pair := LatestPair(c, r, Last(r).threads[t].key);
             pair.Some? && (pair.value.life.Some? ==> Last(r).now < pair.value.life.value + c.staleTtl)
    ensures var th, pair := Last(r).threads[t], LatestPair(c, r, Last(r).threads[t].key);
            th.job.Call? &&
            Act(c, Last(r), t, Ok)
              == (Finish(th.job.req, Stale(pair.value.value)), Spawn(Refresh(th.job.req.ttl, th.job.req.gen)))
  {
    RunGood(c, r);
    ShadowOutlives(c, r, Last(r).threads[t].key);
    GoodShape(c, Last(r), t);
  }
}
