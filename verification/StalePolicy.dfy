/** Policy equivalence: STALE_OR_SYNC without shadow entries behaves exactly as SYNC. */
module StalePolicy {
  import opened Vocabulary
  import opened Protocol
  import opened Locking

  /** Handlers that never create a shadow on their own: Go's, whose only shadow write follows a stale
      hit, and Python's with stale_ttl not positive. */
  predicate ShadowFree(c: Config) {
    c.lang.Go? || c.staleTtl <= 0
  }

  predicate NoForeignShadows(r: Run) {
    r.Then? ==> NoForeignShadows(r.prev) && !r.event.ForeignShadow?
  }

  predicate NoShadowAt(s: State, k: Key) {
    At(s, k).shadow.None?
  }

  ghost predicate NoShadows(s: State) {
    && (forall k :: NoShadowAt(s, k))
    && (forall t | 0 <= t < |s.threads| :: !s.threads[t].pc.PutShadow? && !s.threads[t].job.StaleRefresh?)
  }

  predicate NoShadowLaw(job: Job, pc: PC, v: View, pc': PC, cmd: Cmd) {
    !pc'.PutShadow? && !cmd.SetShadow? && (cmd.Spawn? ==> Worker(cmd.job) && !cmd.job.StaleRefresh?)
  }

  lemma LocalNoShadow(c: Config, job: Job, pc: PC, v: View, ch: Choice)
    requires ShadowFree(c) && Shape(c, job, pc) && Can(c, pc, v, ch)
    requires v.shadow.None? && !pc.PutShadow? && !job.StaleRefresh?
    ensures var (pc', cmd) := Local(c, job, pc, v, ch); NoShadowLaw(job, pc, v, pc', cmd)
  {
  }

  lemma MoveNoShadows(s: State, t: Tid, v: View, pc': PC, cmd: Cmd)
    requires NoShadows(s) && t < |s.threads| && NoShadowLaw(s.threads[t].job, s.threads[t].pc, v, pc', cmd)
    ensures NoShadows(Move(s, t, pc', cmd))
  {
    MoveFrame(s, t, pc', cmd);
    var s' := Move(s, t, pc', cmd);
    assert forall k :: NoShadowAt(s, k) ==> NoShadowAt(s', k);
    forall u | 0 <= u < |s'.threads| ensures !s'.threads[u].pc.PutShadow? && !s'.threads[u].job.StaleRefresh? {
      if u < |s.threads| && u != t { assert s'.threads[u] == s.threads[u]; }
    }
  }

  /** On every run no shadow ever exists, unless it was there before or another process wrote it. */
  lemma {:induction false} ShadowsNeverAppear(c: Config, r: Run)
    requires ShadowFree(c) && IsRun(c, r) && NoForeignShadows(r) && NoShadows(First(r))
    ensures NoShadows(Last(r))
  {
    match r
    case Start(_) =>
    case Then(p, e, s') =>
      ShadowsNeverAppear(c, p);
      RunGood(c, p);
      StepNoShadows(c, Last(p), e);
  }

  lemma {:induction false} StepNoShadows(c: Config, s: State, e: Event)
    requires ShadowFree(c) && Good(c, s) && Enabled(c, s, e) && NoShadows(s) && !e.ForeignShadow?
    ensures NoShadows(Apply(c, s, e))
  {
    match e
    case Step(t, ch) =>
      var th, v := s.threads[t], ViewOf(s, t);
      assert NoShadowAt(s, th.key);
      LocalNoShadow(c, th.job, th.pc, v, ch);
      var (pc', cmd) := Act(c, s, t, ch);
      MoveNoShadows(s, t, v, pc', cmd);
    case Begin(q, job) =>
      assert forall u | 0 <= u < |s.threads| :: Apply(c, s, e).threads[u] == s.threads[u];
      assert forall k :: NoShadowAt(s, k) ==> NoShadowAt(Apply(c, s, e), k);
    case ForeignShadow(_, _, _) =>
    case Tick(_) | Evict(_) | EvictShadow(_) | Foreign(_, _, _) =>
      assert forall k :: NoShadowAt(s, k) ==> NoShadowAt(Apply(c, s, e), k);
  }

  /** The same job under SYNC, and the program point a SYNC call would be at. */
  function SyncJob(job: Job): Job {
    if job.Call? && job.req.miss.StaleOrSync? then Call(job.req.(miss := Sync)) else job
  }

  function SyncThread(th: Thread): Thread {
    th.(job := SyncJob(th.job), pc := if th.pc.StaleGet? then LockWait else th.pc)
  }

  function AsSync(s: State): State {
    s.(threads := seq(|s.threads|, i requires 0 <= i < |s.threads| => SyncThread(s.threads[i])))
  }

  /** Python surfaces a failing shadow lookup; SYNC has no such lookup. */
  predicate FailedLookup(c: Config, s: State, e: Event) {
    c.lang.Python? && e.Step? && e.tid < |s.threads| && s.threads[e.tid].pc.StaleGet? && e.choice.Fail?
  }

  predicate NoFailedLookups(c: Config, r: Run) {
    r.Then? ==> NoFailedLookups(c, r.prev) && !FailedLookup(c, Last(r.prev), r.event)
  }

  /** Every thread's key has a slot. */
  ghost predicate Slotted(s: State) {
    forall t | 0 <= t < |s.threads| :: s.threads[t].key in s.slots
  }

  lemma {:induction false} RunSlotted(c: Config, r: Run)
    requires IsRun(c, r)
    ensures Slotted(Last(r))
  {
    match r
    case Start(_) =>
    case Then(p, e, s') =>
      RunSlotted(c, p);
      match e {
        case Step(t, ch) =>
          var (pc', cmd) := Act(c, Last(p), t, ch);
          MoveSlotted(Last(p), t, pc', cmd);
        case _ =>
      }
  }

  lemma MoveSlotted(s: State, t: Tid, pc': PC, cmd: Cmd)
    requires Slotted(s) && t < |s.threads|
    ensures Slotted(Move(s, t, pc', cmd))
  {
    var s' := Move(s, t, pc', cmd);
    forall u | 0 <= u < |s'.threads| ensures s'.threads[u].key in s'.slots {
      if u < |s.threads| { assert s'.threads[u].key == s.threads[u].key; }
    }
  }

  lemma LocalSync(c: Config, job: Job, pc: PC, v: View, ch: Choice)
    requires Shape(c, job, pc) && Can(c, pc, v, ch) && v.shadow.None?
    requires pc.StaleGet? && c.lang.Python? ==> !ch.Fail?
    ensures var (pc', cmd) := Local(c, job, pc, v, ch);
            if pc.StaleGet? then pc' == LockWait && cmd.Nop?
            else Local(c, SyncJob(job), pc, v, ch) == (if pc'.StaleGet? then LockWait else pc', cmd)
    ensures var (pc', cmd) := Local(c, job, pc, v, ch); cmd.Spawn? ==> Worker(cmd.job)
  {
  }

  lemma SyncMove(s: State, t: Tid, pc': PC, cmd: Cmd)
    requires t < |s.threads| && (cmd.Spawn? ==> Worker(cmd.job)) && !s.threads[t].pc.StaleGet?
    ensures AsSync(Move(s, t, pc', cmd)) == Move(AsSync(s), t, if pc'.StaleGet? then LockWait else pc', cmd)
  {
    var pc'' := if pc'.StaleGet? then LockWait else pc';
    assert AsSync(Move(s, t, pc', cmd)).threads == Move(AsSync(s), t, pc'', cmd).threads;
  }

  lemma SyncStutter(s: State, t: Tid)
    requires Slotted(s) && t < |s.threads| && s.threads[t].pc.StaleGet?
    ensures AsSync(Move(s, t, LockWait, Nop)) == AsSync(s)
  {
    assert AsSync(Move(s, t, LockWait, Nop)).threads == AsSync(s).threads;
    assert Move(s, t, LockWait, Nop).slots == s.slots;
  }

  function SyncEvent(e: Event): Event {
    match e case Begin(k, job) => Begin(k, SyncJob(job)) case _ => e
  }

  /** Step e is a look at the shadow key. */
  predicate LooksStale(s: State, e: Event) {
    e.Step? && e.tid < |s.threads| && s.threads[e.tid].pc.StaleGet?
  }

  /** The events of the SYNC handler: the same events in the same order, without the looks at the shadow. */
  function SyncEvents(r: Run): seq<Event> {
    match r
    case Start(_) => []
    case Then(p, e, _) => SyncEvents(p) + if LooksStale(Last(p), e) then [] else [SyncEvent(e)]
  }

  /** Each step of the stale handler is a step of the SYNC handler, or (the empty lookup) none. */
  lemma {:induction false} StepAsSync(c: Config, s: State, e: Event)
    requires Good(c, s) && Slotted(s) && NoShadows(s) && Enabled(c, s, e) && !FailedLookup(c, s, e)
    ensures LooksStale(s, e) ==> AsSync(Apply(c, s, e)) == AsSync(s)
    ensures !LooksStale(s, e) ==>
              Enabled(c, AsSync(s), SyncEvent(e)) && Apply(c, AsSync(s), SyncEvent(e)) == AsSync(Apply(c, s, e))
  {
    match e
    case Step(t, ch) =>
      var th, v := s.threads[t], ViewOf(s, t);
      assert NoShadowAt(s, th.key);
      LocalSync(c, th.job, th.pc, v, ch);
      var (pc', cmd) := Act(c, s, t, ch);
      if th.pc.StaleGet? {
        SyncStutter(s, t);
      } else {
        assert ViewOf(AsSync(s), t) == v;
        SyncMove(s, t, pc', cmd);
      }
    case Begin(k, job) =>
      assert AsSync(Apply(c, s, e)).threads == Apply(c, AsSync(s), SyncEvent(e)).threads;
    case _ =>
      assert AsSync(Apply(c, s, e)).threads == AsSync(s).threads;
  }

  /** Policy equivalence, one direction.  Whatever a STALE_OR_SYNC handler without shadows does, the same
      handler with SYNC in its place does, from the same start state and through the same events, up to the
      extra lookup. */
  lemma {:induction false} StaleIsSync(c: Config, r: Run) returns (r': Run)
    requires ShadowFree(c) && IsRun(c, r) && NoForeignShadows(r) && NoFailedLookups(c, r) && NoShadows(First(r))
    ensures IsRun(c, r') && First(r') == First(r) && Last(r') == AsSync(Last(r))
    ensures Events(r') == SyncEvents(r)
  {
    match r
    case Start(s) =>
      r' := r;
      assert AsSync(s).threads == s.threads;
    case Then(p, e, s') =>
      r' := StaleIsSync(c, p);
      RunGood(c, p);
      RunSlotted(c, p);
      ShadowsNeverAppear(c, p);
      StepAsSync(c, Last(p), e);
      if !LooksStale(Last(p), e) {
        r' := Then(r', SyncEvent(e), AsSync(s'));
      }
  }

  // The other direction: every SYNC call becomes a STALE_OR_SYNC call.

  function StaleJob(job: Job): Job {
    if job.Call? && job.req.miss.Sync? then Call(job.req.(miss := StaleOrSync)) else job
  }

  function AsStale(s: State): State {
    s.(threads := seq(|s.threads|, i requires 0 <= i < |s.threads| =>
      s.threads[i].(job := StaleJob(s.threads[i].job))))
  }

  /** A SYNC call about to enter its fill policy with a generator. */
  predicate EntersSync(c: Config, job: Job, pc: PC) {
    pc.Dispatch? && job.Call? && job.req.miss.Sync? && job.req.gen.Some?
  }

  lemma LocalStale(c: Config, job: Job, pc: PC, v: View, ch: Choice)
    requires Shape(c, job, pc) && Can(c, pc, v, ch) && v.shadow.None?
    ensures var (pc', cmd) := Local(c, job, pc, v, ch);
            if EntersSync(c, job, pc)
            then (pc', cmd) == (LockWait, Nop) && Local(c, StaleJob(job), pc, v, ch) == (StaleGet, Nop)
                 && Local(c, StaleJob(job), StaleGet, v, Ok) == (LockWait, Nop)
            else Local(c, StaleJob(job), pc, v, ch) == (pc', cmd)
    ensures var (pc', cmd) := Local(c, job, pc, v, ch); cmd.Spawn? ==> Worker(cmd.job)
  {
  }

  lemma StaleMove(s: State, t: Tid, pc': PC, cmd: Cmd)
    requires t < |s.threads| && (cmd.Spawn? ==> Worker(cmd.job))
    ensures AsStale(Move(s, t, pc', cmd)) == Move(AsStale(s), t, pc', cmd)
  {
    assert AsStale(Move(s, t, pc', cmd)).threads == Move(AsStale(s), t, pc', cmd).threads;
  }

  lemma StaleDetour(c: Config, s: State, t: Tid)
    requires t < |s.threads| && EntersSync(c, s.threads[t].job, s.threads[t].pc)
    requires NoShadowAt(s, s.threads[t].key)
    ensures var mid := Move(AsStale(s), t, StaleGet, Nop);
            Enabled(c, mid, Step(t, Ok)) && ViewOf(mid, t).shadow.None? &&
            mid.threads[t].job == StaleJob(s.threads[t].job) && mid.threads[t].pc == StaleGet &&
            Move(mid, t, LockWait, Nop) == AsStale(Move(s, t, LockWait, Nop))
  {
    var mid := Move(AsStale(s), t, StaleGet, Nop);
    assert Move(mid, t, LockWait, Nop).threads == AsStale(Move(s, t, LockWait, Nop)).threads;
    assert Move(mid, t, LockWait, Nop).slots == AsStale(Move(s, t, LockWait, Nop)).slots;
  }

  function StaleEvent(e: Event): Event {
    match e case Begin(k, job) => Begin(k, StaleJob(job)) case _ => e
  }

  /** The events of the STALE_OR_SYNC handler: the same events in the same order, and each entry into the
      SYNC fill is followed by the look at the shadow. */
  function StaleEvents(c: Config, r: Run): seq<Event> {
    match r
    case Start(_) => []
    case Then(p, e, _) => StaleEvents(c, p) + StaleStep(c, Last(p), e)
  }

  function StaleStep(c: Config, s: State, e: Event): seq<Event> {
    if e.Step? && e.tid < |s.threads| && EntersSync(c, s.threads[e.tid].job, s.threads[e.tid].pc)
    then [e, Step(e.tid, Ok)] else [StaleEvent(e)]
  }

  /** The run that does one more event. */
  function Extend(c: Config, r: Run, e: Event): (r': Run)
    requires IsRun(c, r) && Enabled(c, Last(r), e)
    ensures IsRun(c, r') && First(r') == First(r) && Events(r') == Events(r) + [e]
  {
    Then(r, e, Apply(c, Last(r), e))
  }

  lemma StaleOutside(c: Config, s: State, e: Event)
    requires Enabled(c, s, e) && !e.Step?
    ensures Enabled(c, AsStale(s), StaleEvent(e))
    ensures Apply(c, AsStale(s), StaleEvent(e)) == AsStale(Apply(c, s, e))
  {
    assert AsStale(Apply(c, s, e)).threads == Apply(c, AsStale(s), StaleEvent(e)).threads;
  }

  /** What LocalStale says about one step of thread t. */
  lemma StaleAct(c: Config, s: State, t: Tid, ch: Choice)
    requires Good(c, s) && NoShadows(s) && Enabled(c, s, Step(t, ch))
    ensures var (pc', cmd) := Act(c, s, t, ch);
            Enabled(c, AsStale(s), Step(t, ch)) && ViewOf(AsStale(s), t) == ViewOf(s, t) &&
            if EntersSync(c, s.threads[t].job, s.threads[t].pc)
            then (pc', cmd) == (LockWait, Nop) && Act(c, AsStale(s), t, ch) == (StaleGet, Nop)
            else Act(c, AsStale(s), t, ch) == (pc', cmd) && (cmd.Spawn? ==> Worker(cmd.job))
  {
    hide Local;
    GoodShape(c, s, t);
    hide Good;
    assert NoShadowAt(s, s.threads[t].key);
    assert ViewOf(AsStale(s), t) == ViewOf(s, t);
    LocalStale(c, s.threads[t].job, s.threads[t].pc, ViewOf(s, t), ch);
  }

  lemma {:induction false} StepAsStale(c: Config, s: State, e: Event, r: Run) returns (r': Run)
    requires Good(c, s) && NoShadows(s) && Enabled(c, s, e) && IsRun(c, r) && Last(r) == AsStale(s)
    ensures IsRun(c, r') && Last(r') == AsStale(Apply(c, s, e)) && First(r') == First(r)
    ensures Events(r') == Events(r) + StaleStep(c, s, e)
  {
    hide Local;
    hide AsStale;
    hide IsRun;
    match e
    case Step(t, ch) =>
      var (pc', cmd) := Act(c, s, t, ch);
      StaleAct(c, s, t, ch);
      r' := Extend(c, r, e);
      if EntersSync(c, s.threads[t].job, s.threads[t].pc) {
        assert NoShadowAt(s, s.threads[t].key);
        StaleDetour(c, s, t);
        StaleLooks(c, s, t);
        r' := Extend(c, r', Step(t, Ok));
      } else {
        StaleMove(s, t, pc', cmd);
      }
    case _ =>
      StaleOutside(c, s, e);
      r' := Extend(c, r, StaleEvent(e));
  }

  /** The look at the shadow that follows finds nothing. */
  lemma StaleLooks(c: Config, s: State, t: Tid)
    requires Good(c, s) && NoShadows(s) && t < |s.threads| && EntersSync(c, s.threads[t].job, s.threads[t].pc)
    ensures var mid := Move(AsStale(s), t, StaleGet, Nop);
            Enabled(c, mid, Step(t, Ok)) && Act(c, mid, t, Ok) == (LockWait, Nop)
  {
    assert NoShadowAt(s, s.threads[t].key);
    StaleDetour(c, s, t);
  }

  /** Policy equivalence, the other direction.  Whatever a SYNC handler does, the same handler with
      STALE_OR_SYNC in its place does, from the same start state and through the same events, with a look
      at the shadow added to each fill. */
  lemma {:induction false} SyncIsStale(c: Config, r: Run) returns (r': Run)
    requires ShadowFree(c) && IsRun(c, r) && NoForeignShadows(r) && NoShadows(First(r))
    ensures IsRun(c, r') && First(r') == First(r) && Last(r') == AsStale(Last(r))
    ensures Events(r') == StaleEvents(c, r)
  {
    match r
    case Start(s) =>
      r' := r;
      assert AsStale(s).threads == s.threads;
    case Then(p, e, s') =>
      var q := SyncIsStale(c, p);
      RunGood(c, p);
      ShadowsNeverAppear(c, p);
      r' := StepAsStale(c, Last(p), e, q);
  }
}
