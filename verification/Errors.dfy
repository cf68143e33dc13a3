/** What a caller is told when something goes wrong, over whole runs: which failures reach it, what the
    error policy makes of them, and when it gets the deliberate miss signal. */
module Errors {
  import opened Vocabulary
  import opened Protocol
  import opened Locking

  // ---------------------------------------------------------------------------------------------
  // The history of one call
  // ---------------------------------------------------------------------------------------------

  /** Thread t of s takes the step e. */
  predicate Takes(s: State, e: Event, t: Tid) {
    e.Step? && e.tid == t && t < |s.threads|
  }

  /** The first GET of call t failed. */
  ghost predicate LookFailed(r: Run, t: Tid) {
    r.Then? &&
    (LookFailed(r.prev, t)
     || (Takes(Last(r.prev), r.event, t) && Last(r.prev).threads[t].pc.Look? && r.event.choice.Fail?))
  }

  /** Call t entered its fill policy. */
  ghost predicate EnteredFill(r: Run, t: Tid) {
    r.Then? &&
    (EnteredFill(r.prev, t) || (Takes(Last(r.prev), r.event, t) && Last(r.prev).threads[t].pc.Dispatch?))
  }

  /** A failure that the code does not absorb.  Go absorbs a failing second GET, shadow GET and TTL; both
      languages absorb nothing else. */
  predicate Fatal(c: Config, req: Request, pc: PC, v: View, ch: Choice) {
    match pc
    case Look => ch.Fail?
    case Reread => c.lang.Python? && ch.Fail?
    case StaleGet => c.lang.Python? && (ch.Fail? || ch.Garbled?)
    case Trigger(_) =>
      c.lang.Python? && req.gen.Some? &&
      ((ch.Fail? && (req.hit.Ahead? || req.hit.OlderThan? || req.hit.Probabilistic?))
       || (req.hit.Ahead? && req.ttl == 0 && v.remaining > 0))
    case Dispatch => c.lang.Python? && req.gen.None? && !req.miss.FailFast?
    case Check => ch.Fail?
    case Gen => ch.Fail?
    case FreeGen => ch.Fail?
    case Put(_) => ch.Fail? || (c.lang.Python? && req.ttl <= 0)
    case PutShadow(_) => ch.Fail?
    case _ => false
  }

  /** Call t met such a failure. */
  ghost predicate Broke(c: Config, r: Run, t: Tid) {
    r.Then? &&
    (Broke(c, r.prev, t)
     || (var s := Last(r.prev);
         Takes(s, r.event, t) && s.threads[t].job.Call?
         && Fatal(c, s.threads[t].job.req, s.threads[t].pc, ViewOf(s, t), r.event.choice)))
  }

  // ---------------------------------------------------------------------------------------------
  // The invariant
  // ---------------------------------------------------------------------------------------------

  predicate Answered(out: Outcome) {
    out.Cached? || out.Stale? || out.Filled? || out.Generated?
  }

  /** Before its fill policy, a call is at one of these points. */
  predicate BeforeFill(pc: PC) {
    pc.Look? || pc.Trigger? || pc.Gate? || pc.Dedup? || pc.Reread? || pc.Dispatch?
  }

  /** What a returned call was told, given whether it broke, whether its first GET failed, and whether it
      entered its fill policy. */
  predicate Told(c: Config, req: Request, out: Outcome, broke: bool, look: bool, entered: bool) {
    match out
    case Failed => broke && (req.err.Surface? || (c.lang.Go? && look))
    case Zero => broke && req.err.ZeroValue? && !(c.lang.Go? && look)
    case Missed => !broke && !look && entered && req.miss.FailFast?
    case Quiet => false
    case _ => !broke && !look && (entered ==> !req.miss.FailFast?)
  }

  predicate Sound(c: Config, req: Request, pc: PC, broke: bool, look: bool, entered: bool) {
    match pc
    case Done(out) => Told(c, req, out, broke, look, entered) && (look ==> broke && !entered)
                      && (entered && req.miss.FailFast? ==> out.Missed?)
    case Unlock(out) => !look && (if out.Failed? then broke else Answered(out) && !broke) && !req.miss.FailFast?
    case Stamp(out) => !look && Answered(out) && !broke && !req.miss.FailFast?
    case _ => !look && !broke && (BeforeFill(pc) ==> !entered) && (!BeforeFill(pc) ==> !req.miss.FailFast?)
  }

  lemma LockedSound(c: Config, r: Request, pc: PC, v: View, ch: Choice, broke: bool, look: bool, entered: bool)
    requires Shape(c, Call(r), pc) && Can(c, pc, v, ch) && Holds(Call(r), pc) && Sound(c, r, pc, broke, look, entered)
    ensures Sound(c, r, Local(c, Call(r), pc, v, ch).0, broke || Fatal(c, r, pc, v, ch), look, entered)
  {
  }

  lemma FreeSound(c: Config, r: Request, pc: PC, v: View, ch: Choice, broke: bool, look: bool, entered: bool)
    requires Shape(c, Call(r), pc) && Can(c, pc, v, ch) && !Holds(Call(r), pc) && Sound(c, r, pc, broke, look, entered)
    ensures Sound(c, r, Local(c, Call(r), pc, v, ch).0, broke || Fatal(c, r, pc, v, ch),
                  look || (pc.Look? && ch.Fail?), entered || pc.Dispatch?)
  {
  }

  lemma {:induction false} RunSound(c: Config, r: Run, t: Tid)
    requires IsRun(c, r) && t < |Last(r).threads| && Last(r).threads[t].job.Call?
    ensures var th := Last(r).threads[t];
            Sound(c, th.job.req, th.pc, Broke(c, r, t), LookFailed(r, t), EnteredFill(r, t))
  {
    hide Local;
    hide Fatal;
    hide Good;
    if r.Then? {
      var p, e, s := r.prev, r.event, Last(r.prev);
      RunGood(c, p);
      if t < |s.threads| { RunSound(c, p, t); } else { NotYet(c, p, t); }
      match e {
        case Step(u, ch) =>
          var (pc', cmd) := Act(c, s, u, ch);
          MoveFrame(s, u, pc', cmd);
          GoodShape(c, s, u);
          NoCalls(c, s.threads[u].job, s.threads[u].pc, ViewOf(s, u), ch);
          if u == t { OwnSound(c, p, t, ch); }
        case _ =>
          if t < |s.threads| { assert r.state.threads[t] == s.threads[t]; }
      }
    }
  }

  /** Only callers start calls. */
  lemma NoCalls(c: Config, job: Job, pc: PC, v: View, ch: Choice)
    requires Shape(c, job, pc) && Can(c, pc, v, ch)
    ensures var cmd := Local(c, job, pc, v, ch).1; cmd.Spawn? ==> !cmd.job.Call?
  {
  }

  /** A thread that does not exist has no history. */
  lemma {:induction false} NotYet(c: Config, r: Run, t: Tid)
    requires IsRun(c, r) && t >= |Last(r).threads|
    ensures !Broke(c, r, t) && !LookFailed(r, t) && !EnteredFill(r, t)
  {
    if r.Then? {
      var s := Last(r.prev);
      match r.event {
        case Step(u, ch) =>
          var (pc', cmd) := Act(c, s, u, ch);
          MoveFrame(s, u, pc', cmd);
        case _ =>
      }
      NotYet(c, r.prev, t);
    }
  }

  /** The step of the call itself. */
  lemma OwnSound(c: Config, p: Run, t: Tid, ch: Choice)
    requires IsRun(c, p) && Good(c, Last(p)) && Enabled(c, Last(p), Step(t, ch)) && Last(p).threads[t].job.Call?
    requires var th := Last(p).threads[t];
             Sound(c, th.job.req, th.pc, Broke(c, p, t), LookFailed(p, t), EnteredFill(p, t))
    ensures var r, th := Then(p, Step(t, ch), Apply(c, Last(p), Step(t, ch))), Last(p).threads[t];
            Sound(c, th.job.req, Act(c, Last(p), t, ch).0, Broke(c, r, t), LookFailed(r, t), EnteredFill(r, t))
  {
    hide Local;
    hide Fatal;
    hide Sound;
    var th, v := Last(p).threads[t], ViewOf(Last(p), t);
    GoodShape(c, Last(p), t);
    if Holds(th.job, th.pc) {
      LockedSound(c, th.job.req, th.pc, v, ch, Broke(c, p, t), LookFailed(p, t), EnteredFill(p, t));
    } else {
      FreeSound(c, th.job.req, th.pc, v, ch, Broke(c, p, t), LookFailed(p, t), EnteredFill(p, t));
    }
  }

  /** What a returned call was told, exactly, on every run.  Something went wrong for it if and only if it is
      told of a failure or handed the zero value; the error policy decides which of the two, except that a
      failing first GET is always a failure in Go; and it gets the miss signal, under either policy, if and
      only if it is a FAIL_FAST call that entered its fill policy. */
  lemma ToldExactly(c: Config, r: Run, t: Tid)
    requires IsRun(c, r) && t < |Last(r).threads| && Last(r).threads[t].job.Call? && Last(r).threads[t].pc.Done?
    ensures var req, out := Last(r).threads[t].job.req, Last(r).threads[t].pc.out;
            && (out.Failed? || out.Zero? <==> Broke(c, r, t))
            && (req.err.Surface? ==> !out.Zero?)
            && (req.err.ZeroValue? ==> (out.Failed? <==> c.lang.Go? && LookFailed(r, t)))
            && (out.Missed? <==> req.miss.FailFast? && EnteredFill(r, t))
  {
    RunSound(c, r, t);
  }
}
