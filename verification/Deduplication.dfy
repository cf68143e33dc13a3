/** Dedup refinement: a handler with a deduplication window does nothing that a handler without one
    could not do.  A dedup hit becomes a later first look at the key, with hit refresh suppressed. */
module Deduplication {
  import opened Vocabulary
  import opened Protocol
  import opened Locking
  import Cooldown
  import StalePolicy
  import Stampede

  /** The same handler without a deduplication window. */
  function Plain(c: Config): Config {
    c.(dedup := 0)
  }

  /** The points of a call up to the second read. */
  predicate Early(pc: PC) {
    pc.Look? || pc.Dedup? || pc.Reread?
  }

  /** Step e ends a call at its second read: the dedup hit (or, in Python, that read's failure). */
  predicate EndsAtReread(c: Config, s: State, e: Event)
    requires Enabled(c, s, e)
  {
    e.Step? && s.threads[e.tid].pc.Reread? && Act(c, s, e.tid, e.choice).0.Done?
  }

  /** The calls of a run that ended at their second read. */
  function Bypassed(c: Config, r: Run): set<Tid>
    requires IsRun(c, r)
  {
    match r
    case Start(_) => {}
    case Then(p, e, _) => Bypassed(c, p) + if EndsAtReread(c, Last(p), e) then {e.tid} else {}
  }

  /** How thread t looks in the plain handler: a bypassing call waits at its first look, with hit refresh
      switched off; any other call has not made a second read. */
  function PlainJob(bypass: bool, job: Job): Job {
    if bypass && job.Call? then Call(job.req.(noRefresh := true)) else job
  }

  function PlainPc(bypass: bool, pc: PC): PC {
    if bypass && Early(pc) then Look else if pc.Reread? then Dedup else pc
  }

  function PlainThread(bypass: bool, th: Thread): Thread {
    th.(job := PlainJob(bypass, th.job), pc := PlainPc(bypass, th.pc))
  }

  /** Write times that only deduplication consults are not kept. */
  function PlainSlot(c: Config, slot: Slot): Slot {
    if c.cooldown > 0 then slot else slot.(last := None)
  }

  function AsPlain(c: Config, b: set<Tid>, s: State): State {
    State(s.now, map k | k in s.slots :: PlainSlot(c, s.slots[k]),
          seq(|s.threads|, i requires 0 <= i < |s.threads| => PlainThread(i in b, s.threads[i])))
  }

  function PlainView(c: Config, v: View): View {
    if c.cooldown > 0 then v else v.(last := None)
  }

  /** Recording a write is dropped together with the time itself. */
  function PlainCmd(c: Config, cmd: Cmd): Cmd {
    if cmd.Note? && c.cooldown <= 0 then Nop else cmd
  }

  /** The choice the plain thread makes: leaving the second read unread is leaving `Dedup`. */
  function PlainChoice(bypass: bool, pc: PC, ch: Choice): Choice {
    if pc.Reread? && !bypass then Ok else ch
  }

  /** The steps of the deduplicating handler the plain one does not take. */
  predicate Stutters(bypass: bool, pc: PC, pc': PC) {
    (bypass && Early(pc) && Early(pc')) || (!bypass && pc.Dedup? && pc'.Reread?)
  }

  /** A call that is going to end at its second read. */
  lemma LocalBypass(c: Config, job: Job, pc: PC, v: View, ch: Choice)
    requires c.dedup > 0 && Shape(c, job, pc) && Can(c, pc, v, ch) && Early(pc)
    requires var pc' := Local(c, job, pc, v, ch).0; Early(pc') || (pc.Reread? && pc'.Done?)
    ensures var (pc', cmd) := Local(c, job, pc, v, ch);
            cmd.Nop? &&
            (pc'.Done? ==> Can(Plain(c), Look, PlainView(c, v), ch) &&
                           Local(Plain(c), PlainJob(true, job), Look, PlainView(c, v), ch) == (pc', Nop))
  {
  }

  /** A call about to leave its second read for the fill policy leaves `Dedup` in the plain handler. */
  lemma LocalUnread(c: Config, job: Job, v: View, ch: Choice)
    requires c.dedup > 0 && Shape(c, job, Reread) && Can(c, Reread, v, ch)
    requires !Local(c, job, Reread, v, ch).0.Done?
    ensures Local(c, job, Reread, v, ch) == (Dispatch, Nop)
    ensures Local(Plain(c), job, Dedup, PlainView(c, v), Ok) == (Dispatch, Nop)
  {
  }

  /** Any other step is the same step in the plain handler. */
  predicate SameLaw(c: Config, job: Job, pc: PC, v: View, ch: Choice)
    requires Can(c, pc, v, ch)
  {
    var (pc', cmd) := Local(c, job, pc, v, ch);
    if pc.Dedup? && pc'.Reread? then cmd.Nop?
    else Can(Plain(c), pc, PlainView(c, v), ch) &&
         Local(Plain(c), job, pc, PlainView(c, v), ch) == (pc', PlainCmd(c, cmd))
  }

  lemma CooledSame(c: Config, v: View)
    ensures Cooled(c, v) == Cooled(Plain(c), PlainView(c, v))
  {
  }

  lemma CallSame(c: Config, r: Request, pc: PC, v: View, ch: Choice)
    requires c.dedup > 0 && Shape(c, Call(r), pc) && Can(c, pc, v, ch) && !pc.Reread?
    ensures SameLaw(c, Call(r), pc, v, ch)
  {
    CooledSame(c, v);
    hide Cooled;
  }

  lemma WriterSame(c: Config, job: Job, pc: PC, v: View, ch: Choice)
    requires c.dedup > 0 && !job.Call? && Shape(c, job, pc) && Can(c, pc, v, ch)
    requires pc.Put? || pc.PutShadow? || pc.Record?
    ensures SameLaw(c, job, pc, v, ch)
  {
    hide Cooled;
    hide WroteRecently;
  }

  lemma OtherSame(c: Config, job: Job, pc: PC, v: View, ch: Choice)
    requires c.dedup > 0 && !job.Call? && Shape(c, job, pc) && Can(c, pc, v, ch)
    ensures SameLaw(c, job, pc, v, ch)
  {
    hide WroteRecently;
    if pc.Put? || pc.PutShadow? || pc.Record? {
      hide SameLaw;
      WriterSame(c, job, pc, v, ch);
    } else {
      CooledSame(c, v);
      hide Cooled;
    }
  }

  lemma LocalEarly(c: Config, job: Job, pc: PC, v: View, ch: Choice)
    requires Shape(c, job, pc) && Can(c, pc, v, ch)
    ensures var (pc', cmd) := Local(c, job, pc, v, ch);
            && (Early(pc') ==> Early(pc))
            && (pc'.Reread? ==> pc.Dedup?)
            && (cmd.Spawn? ==> Worker(cmd.job))
  {
  }

  /** bypass tells whether this call is going to end at its second read. */
  lemma LocalPlain(c: Config, job: Job, pc: PC, v: View, ch: Choice, bypass: bool)
    requires c.dedup > 0 && Shape(c, job, pc) && Can(c, pc, v, ch)
    requires bypass ==> Early(pc)
    requires var pc' := Local(c, job, pc, v, ch).0;
             if bypass then Early(pc') || (pc.Reread? && pc'.Done?) else pc.Reread? ==> !pc'.Done?
    ensures var (pc', cmd) := Local(c, job, pc, v, ch);
            if Stutters(bypass, pc, pc') then cmd.Nop?
            else Can(Plain(c), PlainPc(bypass, pc), PlainView(c, v), PlainChoice(bypass, pc, ch)) &&
                 Local(Plain(c), PlainJob(bypass, job), PlainPc(bypass, pc), PlainView(c, v),
                       PlainChoice(bypass, pc, ch))
                   == (PlainPc(bypass, pc'), PlainCmd(c, cmd))
  {
    LocalEarly(c, job, pc, v, ch);
    if bypass {
      LocalBypass(c, job, pc, v, ch);
    } else if pc.Reread? {
      LocalUnread(c, job, v, ch);
    } else {
      if job.Call? { CallSame(c, job.req, pc, v, ch); } else { OtherSame(c, job, pc, v, ch); }
    }
  }

  lemma PlainAt(c: Config, b: set<Tid>, s: State, k: Key)
    ensures At(AsPlain(c, b, s), k) == PlainSlot(c, At(s, k))
  {
  }

  lemma PlainViewOf(c: Config, b: set<Tid>, s: State, t: Tid)
    requires t < |s.threads| && !(t in b && s.threads[t].pc.CoopWait?) && Good(c, s)
    requires forall u | u in b && u < |s.threads| :: Early(s.threads[u].pc) || s.threads[u].pc.Done?
    ensures ViewOf(AsPlain(c, b, s), t) == PlainView(c, ViewOf(s, t))
  {
    PlainAt(c, b, s, s.threads[t].key);
  }

  lemma PlainMove(c: Config, b: set<Tid>, s: State, t: Tid, pc': PC, cmd: Cmd)
    requires StalePolicy.Slotted(s) && t < |s.threads| && (cmd.Spawn? ==> Worker(cmd.job) && |s.threads| !in b)
    requires !s.threads[t].pc.Cool? || t !in b
    ensures AsPlain(c, b, Move(s, t, pc', cmd))
              == Move(AsPlain(c, b, s), t, PlainPc(t in b, pc'), PlainCmd(c, cmd))
  {
    var lhs := AsPlain(c, b, Move(s, t, pc', cmd));
    var rhs := Move(AsPlain(c, b, s), t, PlainPc(t in b, pc'), PlainCmd(c, cmd));
    PlainAt(c, b, s, s.threads[t].key);
    assert lhs.threads == rhs.threads;
    assert lhs.slots == rhs.slots;
  }

  lemma PlainStutter(c: Config, b: set<Tid>, s: State, t: Tid, pc': PC)
    requires StalePolicy.Slotted(s) && t < |s.threads| && Stutters(t in b, s.threads[t].pc, pc')
    ensures AsPlain(c, b, Move(s, t, pc', Nop)) == AsPlain(c, b, s)
  {
    var lhs, rhs := AsPlain(c, b, Move(s, t, pc', Nop)), AsPlain(c, b, s);
    assert Move(s, t, pc', Nop).slots == s.slots;
    assert lhs.threads == rhs.threads;
  }

  /** b foretells the run: it contains every call that has ended at its second read, and any other call
      in it has not got past that read. */
  ghost predicate Foretells(c: Config, r: Run, b: set<Tid>)
    requires IsRun(c, r)
  {
    && Bypassed(c, r) <= b
    && forall t | t in b && t < |Last(r).threads| ::
         Early(Last(r).threads[t].pc) || (t in Bypassed(c, r) && Last(r).threads[t].pc.Done?)
  }

  /** What b says about one step. */
  ghost predicate Fits(c: Config, s: State, e: Event, b: set<Tid>)
    requires Enabled(c, s, e)
  {
    && (forall u | u in b && u < |s.threads| :: Early(s.threads[u].pc) || s.threads[u].pc.Done?)
    && match e
       case Step(t, ch) =>
         var (pc', cmd) := Act(c, s, t, ch);
         && (t in b ==> Early(s.threads[t].pc) && (Early(pc') || (s.threads[t].pc.Reread? && pc'.Done?)))
         && (t !in b && s.threads[t].pc.Reread? ==> !pc'.Done?)
         && (cmd.Spawn? ==> |s.threads| !in b)
       case Begin(k, job) => |s.threads| in b ==> job.Call?
       case _ => true
  }

  lemma {:induction false} BypassedAreDone(c: Config, r: Run, t: Tid)
    requires IsRun(c, r) && t in Bypassed(c, r)
    ensures t < |Last(r).threads| && Last(r).threads[t].pc.Done?
  {
    var p, e := r.prev, r.event;
    if t in Bypassed(c, p) { BypassedAreDone(c, p, t); }
    match e {
      case Step(u, ch) =>
        var (pc', cmd) := Act(c, Last(p), u, ch);
        MoveFrame(Last(p), u, pc', cmd);
      case _ =>
    }
  }

  /** The early points are only reached from early points, and threads only appear at first steps. */
  lemma {:induction false} EarlyBackward(c: Config, s: State, e: Event, t: Tid)
    requires Good(c, s) && Enabled(c, s, e) && t < |s.threads|
    ensures t < |Apply(c, s, e).threads|
    ensures !(e.Step? && e.tid == t) ==> Apply(c, s, e).threads[t] == s.threads[t]
    ensures Early(Apply(c, s, e).threads[t].pc) ==> Early(s.threads[t].pc)
  {
    match e
    case Step(u, ch) =>
      LocalEarly(c, s.threads[u].job, s.threads[u].pc, ViewOf(s, u), ch);
      var (pc', cmd) := Act(c, s, u, ch);
      MoveFrame(s, u, pc', cmd);
    case _ =>
  }

  lemma {:induction false} ForetoldThread(c: Config, r: Run, b: set<Tid>, t: Tid)
    requires IsRun(c, r) && r.Then? && Foretells(c, r, b) && t in b && t < |Last(r.prev).threads|
    ensures Early(Last(r.prev).threads[t].pc) || (t in Bypassed(c, r.prev) && Last(r.prev).threads[t].pc.Done?)
  {
    RunGood(c, r.prev);
    EarlyBackward(c, Last(r.prev), r.event, t);
    if t in Bypassed(c, r.prev) { BypassedAreDone(c, r.prev, t); }
  }

  lemma {:induction false} FreshThread(c: Config, s: State, e: Event)
    requires Good(c, s) && Enabled(c, s, e)
    ensures var s' := Apply(c, s, e);
            (e.Begin? ==> |s'.threads| == |s.threads| + 1 && s'.threads[|s.threads|].pc == InitialPc(e.job)) &&
            (e.Step? && Act(c, s, e.tid, e.choice).1.Spawn? ==>
               |s'.threads| == |s.threads| + 1
               && s'.threads[|s.threads|].pc == InitialPc(Act(c, s, e.tid, e.choice).1.job)
               && !Early(s'.threads[|s.threads|].pc) && !s'.threads[|s.threads|].pc.Done?) &&
            (e.Step? ==> s'.threads[e.tid].pc == Act(c, s, e.tid, e.choice).0)
  {
    match e
    case Step(u, ch) =>
      LocalEarly(c, s.threads[u].job, s.threads[u].pc, ViewOf(s, u), ch);
      var (pc', cmd) := Act(c, s, u, ch);
      MoveFrame(s, u, pc', cmd);
    case _ =>
  }

  lemma {:induction false} ForetoldBefore(c: Config, r: Run, b: set<Tid>)
    requires IsRun(c, r) && r.Then? && Foretells(c, r, b)
    ensures Foretells(c, r.prev, b) && Fits(c, Last(r.prev), r.event, b)
  {
    var p, e, s := r.prev, r.event, Last(r.prev);
    RunGood(c, p);
    forall t | t in b && t < |s.threads|
      ensures Early(s.threads[t].pc) || (t in Bypassed(c, p) && s.threads[t].pc.Done?)
    {
      ForetoldThread(c, r, b, t);
    }
    FreshThread(c, s, e);
    if |s.threads| in Bypassed(c, p) { BypassedAreDone(c, p, |s.threads|); }
    if e.Step? && e.tid in Bypassed(c, p) { BypassedAreDone(c, p, e.tid); }
  }

  function PlainEvent(b: set<Tid>, s: State, e: Event): Event {
    match e
    case Begin(k, job) => Begin(k, PlainJob(|s.threads| in b, job))
    case Step(t, ch) => if t < |s.threads| then Step(t, PlainChoice(t in b, s.threads[t].pc, ch)) else e
    case _ => e
  }

  lemma PlainBegin(c: Config, s: State, k: Key, job: Job, b: set<Tid>)
    requires Admissible(c, job) && (|s.threads| in b ==> job.Call?)
    ensures Admissible(Plain(c), PlainJob(|s.threads| in b, job))
    ensures AsPlain(c, b, Apply(c, s, Begin(k, job)))
              == Apply(Plain(c), AsPlain(c, b, s), Begin(k, PlainJob(|s.threads| in b, job)))
  {
    var s' := Apply(c, s, Begin(k, job));
    var s'' := Apply(Plain(c), AsPlain(c, b, s), Begin(k, PlainJob(|s.threads| in b, job)));
    PlainAt(c, b, s, k);
    assert AsPlain(c, b, s').threads == s''.threads;
    assert AsPlain(c, b, s').slots == s''.slots;
  }

  lemma PlainOutside(c: Config, s: State, e: Event, b: set<Tid>)
    requires !e.Step? && !e.Begin?
    ensures AsPlain(c, b, Apply(c, s, e)) == Apply(Plain(c), AsPlain(c, b, s), e)
  {
    assert AsPlain(c, b, Apply(c, s, e)).slots == Apply(Plain(c), AsPlain(c, b, s), e).slots;
  }

  /** The events of the deduplicating handler that the plain one does not need: the extra steps between
      the first look and the second read. */
  predicate Skipped(c: Config, s: State, e: Event, b: set<Tid>)
    requires Enabled(c, s, e)
  {
    e.Step? && Stutters(e.tid in b, s.threads[e.tid].pc, Act(c, s, e.tid, e.choice).0)
  }

  /** Each step of the deduplicating handler is one step of the plain handler, or none. */
  lemma {:induction false} StepAsPlain(c: Config, s: State, e: Event, b: set<Tid>)
    requires c.dedup > 0 && Good(c, s) && StalePolicy.Slotted(s) && Enabled(c, s, e) && Fits(c, s, e, b)
    ensures Skipped(c, s, e, b) ==> AsPlain(c, b, Apply(c, s, e)) == AsPlain(c, b, s)
    ensures !Skipped(c, s, e, b) ==>
              Enabled(Plain(c), AsPlain(c, b, s), PlainEvent(b, s, e)) &&
              Apply(Plain(c), AsPlain(c, b, s), PlainEvent(b, s, e)) == AsPlain(c, b, Apply(c, s, e))
  {
    match e
    case Step(t, ch) =>
      var th, v := s.threads[t], ViewOf(s, t);
      LocalEarly(c, th.job, th.pc, v, ch);
      LocalPlain(c, th.job, th.pc, v, ch, t in b);
      var (pc', cmd) := Act(c, s, t, ch);
      if Stutters(t in b, th.pc, pc') {
        PlainStutter(c, b, s, t, pc');
      } else {
        PlainViewOf(c, b, s, t);
        PlainMove(c, b, s, t, pc', cmd);
      }
    case Begin(k, job) => PlainBegin(c, s, k, job, b);
    case _ => PlainOutside(c, s, e, b);
  }

  /** The events of the plain handler: the same events in the same order, without the skipped ones. */
  function PlainEvents(c: Config, r: Run, b: set<Tid>): seq<Event>
    requires IsRun(c, r)
  {
    match r
    case Start(_) => []
    case Then(p, e, _) =>
      PlainEvents(c, p, b) + if Skipped(c, Last(p), e, b) then [] else [PlainEvent(b, Last(p), e)]
  }

  /** Given which calls end at their second read, the plain handler follows event by event. */
  lemma {:induction false} Follow(c: Config, r: Run, b: set<Tid>) returns (r': Run)
    requires c.dedup > 0 && IsRun(c, r) && Foretells(c, r, b)
    ensures IsRun(Plain(c), r') && Events(r') == PlainEvents(c, r, b)
    ensures First(r') == AsPlain(c, b, First(r)) && Last(r') == AsPlain(c, b, Last(r))
  {
    match r
    case Start(s) =>
      r' := Start(AsPlain(c, b, s));
    case Then(p, e, s') =>
      ForetoldBefore(c, r, b);
      r' := Follow(c, p, b);
      RunGood(c, p);
      StalePolicy.RunSlotted(c, p);
      StepAsPlain(c, Last(p), e, b);
      if !Skipped(c, Last(p), e, b) {
        r' := Then(r', PlainEvent(b, Last(p), e), AsPlain(c, b, s'));
      }
  }

  /** A new handler looks the same with and without a window. */
  lemma PlainStart(c: Config, b: set<Tid>, s: State)
    requires Init(s)
    ensures AsPlain(c, b, s) == s
  {
    assert AsPlain(c, b, s).slots == s.slots;
  }

  /** Dedup refinement.  Every run of a handler with a deduplication window is matched by a run of the same
      handler without one: from the same start state, through the same events in the same order, except
      that the extra steps up to a second read are left out and that a call which is going to end at its
      second read (the calls in `Bypassed`) arrives with hit refresh disabled and makes its first look at
      that moment.  Both end with the same clock, entries, locks and returned outcomes. */
  lemma {:induction false} DedupRefines(c: Config, r: Run) returns (r': Run)
    requires c.dedup > 0 && IsRun(c, r)
    ensures IsRun(Plain(c), r') && First(r') == First(r)
    ensures Events(r') == PlainEvents(c, r, Bypassed(c, r))
    ensures Last(r').now == Last(r).now
    ensures forall k :: At(Last(r'), k).main == At(Last(r), k).main
                        && At(Last(r'), k).shadow == At(Last(r), k).shadow
                        && At(Last(r'), k).holder == At(Last(r), k).holder
    ensures |Last(r').threads| == |Last(r).threads|
    ensures forall t | 0 <= t < |Last(r).threads| ::
              Last(r').threads[t].key == Last(r).threads[t].key
              && Last(r').threads[t].job == PlainJob(t in Bypassed(c, r), Last(r).threads[t].job)
              && (Last(r).threads[t].pc.Done? ==> Last(r').threads[t].pc == Last(r).threads[t].pc)
  {
    var b := Bypassed(c, r);
    forall t | t in b ensures t < |Last(r).threads| && Last(r).threads[t].pc.Done? {
      BypassedAreDone(c, r, t);
    }
    r' := Follow(c, r, b);
    Stampede.FirstIsInitial(c, r);
    PlainStart(c, b, First(r));
    forall k ensures At(Last(r'), k) == PlainSlot(c, At(Last(r), k)) {
      PlainAt(c, b, Last(r), k);
    }
  }

  // ---------------------------------------------------------------------------------------------
  // When the second look is taken
  // ---------------------------------------------------------------------------------------------

  /** The deduplication test, from the recorded history alone: after a miss a call looks a second time if
      and only if this handler recorded a write of the key within the window and within the call's ttl;
      otherwise it enters its fill policy at once. */
  lemma SecondLookExactly(c: Config, r: Run, t: Tid)
    requires IsRun(c, r) && t < |Last(r).threads| && Last(r).threads[t].pc.Dedup?
    ensures Last(r).threads[t].job.Call?
    ensures var th := Last(r).threads[t];
            var recent := exists w: Time :: Cooldown.Recorded(c, r, th.key, w) && Last(r).now - w < c.dedup
                                            && Last(r).now - w < th.job.req.ttl;
            Act(c, Last(r), t, Ok) == (if recent then Reread else Dispatch, Nop)
  {
    RunGood(c, r);
    GoodShape(c, Last(r), t);
    var th, last := Last(r).threads[t], At(Last(r), Last(r).threads[t].key).last;
    Cooldown.LastNoted(c, r, th.key);
    if last.Some? { assert Cooldown.Recorded(c, r, th.key, last.value); }
    forall w: Time | Cooldown.Recorded(c, r, th.key, w) ensures last.Some? && w <= last.value <= Last(r).now {
      Cooldown.NotedIsOld(c, r, th.key, w);
    }
  }

  /** What the second look does: a value that is live at that moment ends the call and is its answer, with
      no refresh; an absent one leads to the fill policy; a failing GET counts as absent in Go. */
  lemma SecondLookAnswers(c: Config, r: Run, t: Tid, ch: Choice)
    requires IsRun(c, r) && t < |Last(r).threads| && Last(r).threads[t].pc.Reread? && Enabled(c, Last(r), Step(t, ch))
    ensures Last(r).threads[t].job.Call?
    ensures var main := At(Last(r), Last(r).threads[t].key).main;
            var live := main.Some? && (main.value.life.Some? ==> Last(r).now < main.value.life.value);
            && (ch.Ok? ==> Act(c, Last(r), t, ch) == (if live then Done(Cached(main.value.value)) else Dispatch, Nop))
            && (ch.Fail? && c.lang.Go? ==> Act(c, Last(r), t, ch) == (Dispatch, Nop))
            && (ch.Fail? && c.lang.Python? ==> Act(c, Last(r), t, ch).0.Done? && Act(c, Last(r), t, ch).1.Nop?)
  {
    RunGood(c, r);
    GoodShape(c, Last(r), t);
  }
}
