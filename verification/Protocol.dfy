/** The cache-fill and refresh protocol as a step relation.

    A state holds, for each key, the main entry, its `:stale` shadow, the key lock and the in-process
    timestamps, together with any number of threads.  One step is one Redis command, one lock
    operation, the start or the end of a generator call, one timestamp read or record, or one spawn. */
module Protocol {
  import opened Vocabulary

  // ---------------------------------------------------------------------------------------------
  // The shared state of one key
  // ---------------------------------------------------------------------------------------------

  /** A Redis entry; `life` is the instant at which it expires, if it ever does. */
  datatype Entry = Entry(value: Value, life: Option<Time>)

  /** `holder` names the thread whose token sits in the key's capacity-1 channel; the code only ever
      tests whether there is one. */
  datatype Slot = Slot(
    main: Option<Entry>, shadow: Option<Entry>, holder: Option<Tid>,
    last: Option<Time>, created: Option<Time>)

  const EMPTY_SLOT := Slot(None, None, None, None, None)

  predicate Alive(e: Option<Entry>, now: Time) {
    e.Some? && (e.value.life.Some? ==> now < e.value.life.value)
  }

  /** What a GET returns. */
  function Read(e: Option<Entry>, now: Time): Option<Value> {
    if Alive(e, now) then Some(e.value.value) else None
  }

  /** What a TTL command returns: -2 without a key, -1 without an expiry. */
  function Remaining(e: Option<Entry>, now: Time): int {
    if !Alive(e, now) then -2 else if e.value.life.None? then -1 else e.value.life.value - now
  }

  /** SET with a lifetime; a client that passes no positive lifetime stores a persistent key. */
  function Fresh(v: Value, now: Time, ttl: int): Entry {
    Entry(v, if ttl > 0 then Some(now + ttl) else None)
  }

  // ---------------------------------------------------------------------------------------------
  // Threads
  // ---------------------------------------------------------------------------------------------

  datatype Job =
    | Call(req: Request)                              // GetOrRefresh / get_or_refresh
    | Assign(value: Value, ttl: int)                  // a direct Set / set
    | Remove                                          // a direct delete (Python only)
    | WriteBack(value: Value, ttl: int)               // spawnBackgroundMissWrite / _bg_write
    | Refresh(ttl: int, gen: Option<Generator>)       // spawnBackgroundRefresh / _bg_refresh
    | StaleRefresh(ttl: int, gen: Option<Generator>)  // spawnStaleRefresh (Go only)
    | Helper                                          // the goroutine of missCooperativeRefresh

  datatype PC =
    | Look                            // about to GET the main key
    | Trigger(value: Value)           // hit: about to ask whether the refresh trigger fires
    | Gate(value: Value)              // trigger fired: about to test the cooldown and spawn
    | Dedup                           // miss: about to consult the last-write map
    | Reread                          // about to GET the main key again
    | Dispatch                        // about to enter the fill policy
    | StaleGet                        // about to GET the shadow key
    | CoopWait(helper: Option<Tid>)   // bounded wait (for the lock, or for the helper's signal)
    | LockWait                        // blocking wait for the key lock
    | Signal                          // helper: holds the lock, about to close the channel
    | TryLock                         // background worker: about to try the key lock
    | Check                           // holds the lock, about to look again
    | Cool                            // holds the lock, about to test the cooldown
    | GenReady                        // holds the lock, about to start the generator
    | Gen                             // holds the lock, generator running
    | Put(value: Value)               // about to SET the main key
    | PutShadow(value: Value)         // about to SET the shadow key
    | Record(value: Value)            // about to record the write time
    | Unlock(out: Outcome)            // about to release the key lock
    | FreeReady                       // about to start the generator without the lock
    | FreeGen                         // generator running without the lock
    | Handoff(value: Value)           // about to spawn the background write
    | Stamp(out: Outcome)             // about to record the fill for PROBABILISTIC
    | Drop                            // about to DEL both keys
    | Done(out: Outcome)

  /** `passed` is a history variable: the clock when this worker last passed the cooldown test. */
  datatype Thread = Thread(key: Key, job: Job, pc: PC, passed: Time)

  /** A key has a slot from its first use on; `At` reads any other key as empty. */
  datatype State = State(now: Time, slots: map<Key, Slot>, threads: seq<Thread>)

  function At(s: State, k: Key): Slot {
    if k in s.slots then s.slots[k] else EMPTY_SLOT
  }

  function InitialPc(job: Job): PC {
    match job
    case Call(_) => Look
    case Assign(v, _) => Put(v)
    case Remove => Drop
    case Helper => LockWait
    case _ => TryLock
  }

  /** The program points between acquiring and releasing the key lock. */
  predicate Holds(job: Job, pc: PC) {
    !job.Assign? &&
    (pc.Signal? || pc.Check? || pc.Cool? || pc.GenReady? || pc.Gen? || pc.Put? || pc.PutShadow?
     || pc.Record? || pc.Unlock?)
  }

  function Ttl(job: Job): int {
    match job
    case Call(r) => r.ttl
    case Assign(_, ttl) => ttl
    case WriteBack(_, ttl) => ttl
    case Refresh(ttl, _) => ttl
    case StaleRefresh(ttl, _) => ttl
    case _ => 0
  }

  function GeneratorOf(job: Job): Option<Generator> {
    match job
    case Call(r) => r.gen
    case Refresh(_, g) => g
    case StaleRefresh(_, g) => g
    case _ => None
  }

  // ---------------------------------------------------------------------------------------------
  // One step of one thread
  // ---------------------------------------------------------------------------------------------

  /** Everything one step may observe of the shared state. */
  datatype View = View(
    now: Time, main: Option<Value>, shadow: Option<Value>, remaining: int, free: bool,
    last: Option<Time>, created: Option<Time>, signalled: bool, child: Tid)

  /** The nondeterminism of one step: a command may fail, a generator yields a value or fails, a
      bounded wait may time out, the probabilistic trigger may skip, and a value that was read may turn
      out not to be decodable after work has already been started on it. */
  datatype Choice = Ok | Fail | Timeout | Skip | Garbled | Yield(value: Value)

  /** The effect of one step on the shared state. */
  datatype Cmd =
    | Nop
    | SetMain(entry: Entry)
    | SetShadow(entry: Entry)
    | DelBoth
    | Acquire
    | Release
    | Note
    | NoteCreated
    | Spawn(job: Job)

  predicate Can(c: Config, pc: PC, v: View, ch: Choice) {
    match pc
    case Look => ch.Ok? || ch.Fail?
    case Reread => ch.Ok? || ch.Fail?
    case StaleGet => ch.Ok? || ch.Fail? || (ch.Garbled? && c.lang.Python? && v.shadow.Some?)
    case Check => ch.Ok? || ch.Fail?
    case Put(_) => ch.Ok? || ch.Fail?
    case PutShadow(_) => ch.Ok? || ch.Fail?
    case Drop => ch.Ok? || ch.Fail?
    case Trigger(_) => ch.Ok? || ch.Fail? || ch.Skip?
    case Gen => ch.Yield? || ch.Fail?
    case FreeGen => ch.Yield? || ch.Fail?
    case CoopWait(_) => ch.Timeout? || (ch.Ok? && if c.lang.Go? then v.signalled else v.free)
    case LockWait => ch.Ok? && v.free
    case Done(_) => false
    case _ => ch.Ok?
  }

  /** shouldRefreshNow / _should_refresh */
  predicate Cooled(c: Config, v: View) {
    c.cooldown <= 0 || v.last.None? || v.now - v.last.value >= c.cooldown
  }

  /** The dedup test of checkDeduplicationBypass / _check_dedup */
  predicate WroteRecently(c: Config, ttl: int, v: View) {
    c.dedup > 0 && v.last.Some? && v.now - v.last.value < Min(c.dedup, ttl)
  }

  /** The AHEAD and OLDER_THAN tests on the entry's remaining lifetime. */
  predicate AheadFires(lang: Lang, ttl: int, threshold: real, remaining: int) {
    remaining > 0 && ttl != 0 &&
    var ratio := remaining as real / ttl as real;
    if lang.Go? then ratio <= threshold else ratio < threshold
  }

  predicate OlderFires(lang: Lang, ttl: int, age: real, remaining: int) {
    remaining > 0 &&
    if lang.Go? then age > 0.0 && (ttl - remaining) as real >= age else (ttl - remaining) as real > age
  }

  predicate AsksTtl(lang: Lang, hit: Hit) {
    hit.Ahead? || hit.OlderThan? || (hit.Probabilistic? && lang.Python?)
  }

  /** Python divides by the call's TTL; a zero TTL raises. */
  predicate AheadRaises(lang: Lang, r: Request, remaining: int) {
    lang.Python? && r.hit.Ahead? && r.ttl == 0 && remaining > 0
  }

  predicate Fires(c: Config, r: Request, v: View, ch: Choice) {
    match r.hit
    case OnHit => true
    case NoHit => false
    case Ahead(f) => AheadFires(c.lang, r.ttl, f, v.remaining)
    case OlderThan(a) => OlderFires(c.lang, r.ttl, a, v.remaining)
    case Probabilistic => ch.Ok? && if c.lang.Go? then v.created.Some? else v.remaining > 0
  }

  /** The error policy: it swallows failures, and never the deliberate miss signal. */
  function Settle(r: Request, out: Outcome): Outcome {
    if out.Failed? && r.err.ZeroValue? then Zero else out
  }

  predicate Success(out: Outcome) {
    out.Cached? || out.Stale? || out.Filled? || out.Generated?
  }

  /** The tail of a call after the fill policy returned. */
  function Finish(r: Request, out: Outcome): PC {
    if Success(out) && r.hit.Probabilistic? then Stamp(out) else Done(Settle(r, out))
  }

  /** A SET of the main key takes effect; Redis rejects a lifetime that is not positive, which only the
      Python client sends. */
  predicate SetLands(c: Config, job: Job, ch: Choice) {
    ch.Ok? && (c.lang.Python? ==> Ttl(job) > 0)
  }

  /** Where a writer goes after its last SET failed. */
  function GiveUp(job: Job): PC {
    match job
    case Call(_) => Unlock(Failed)
    case Assign(_, _) => Done(Failed)
    case _ => Unlock(Quiet)
  }

  predicate Records(c: Config) {
    c.cooldown > 0 || c.dedup > 0
  }

  function LocalCall(c: Config, r: Request, pc: PC, v: View, ch: Choice): (PC, Cmd)
    requires Can(c, pc, v, ch)
  {
    match pc
    case Look =>
      if ch.Fail? then (Done(if c.lang.Go? then Failed else Settle(r, Failed)), Nop)
      else if v.main.None? then (Dedup, Nop)
      else (if r.noRefresh then Done(Cached(v.main.value)) else Trigger(v.main.value), Nop)
    case Trigger(x) =>
      if c.lang.Python? && (r.gen.None? || r.hit.NoHit?) then (Done(Cached(x)), Nop)
      else if (ch.Fail? && AsksTtl(c.lang, r.hit)) || AheadRaises(c.lang, r, v.remaining) then
        (Done(if c.lang.Go? then Cached(x) else Settle(r, Failed)), Nop)
      else (if Fires(c, r, v, ch) then Gate(x) else Done(Cached(x)), Nop)
    case Gate(x) =>
      if (c.lang.Python? || r.hit.OnHit?) && !Cooled(c, v) then (Done(Cached(x)), Nop)
      else (Done(Cached(x)), Spawn(Refresh(r.ttl, r.gen)))
    case Dedup => (if WroteRecently(c, r.ttl, v) then Reread else Dispatch, Nop)
    case Reread =>
      if ch.Fail? then (if c.lang.Go? then Dispatch else Done(Settle(r, Failed)), Nop)
      else (if v.main.None? then Dispatch else Done(Cached(v.main.value)), Nop)
    case Dispatch =>
      if c.lang.Python? && r.gen.None? && !r.miss.FailFast? then (Done(Settle(r, Failed)), Nop)
      else (
        match r.miss
        case Sync => (LockWait, Nop)
        case Async => (FreeReady, Nop)
        case StaleOrSync => (StaleGet, Nop)
        case FailFast => (Done(Missed), Nop)
        case Cooperative =>
          if c.lang.Go? then (CoopWait(Some(v.child)), Spawn(Helper)) else (CoopWait(None), Nop))
    case StaleGet =>
      if ch.Fail? then (if c.lang.Go? then LockWait else Done(Settle(r, Failed)), Nop)
      else if v.shadow.None? then (LockWait, Nop)
      else if ch.Garbled? then (Done(Settle(r, Failed)), Spawn(Refresh(r.ttl, r.gen)))
      else (Finish(r, Stale(v.shadow.value)),
            if c.lang.Python? then Spawn(Refresh(r.ttl, r.gen))
            else if r.noRefresh then Nop else Spawn(StaleRefresh(r.ttl, r.gen)))
    case CoopWait(_) =>
      if ch.Timeout? then (FreeReady, Nop)
      else if c.lang.Go? then (LockWait, Nop)
      else (Check, Acquire)
    case FreeReady => (FreeGen, Nop)
    case FreeGen =>
      if ch.Fail? then (Done(Settle(r, Failed)), Nop)
      else if r.miss.Async? then (Handoff(ch.value), Nop)
      else (Finish(r, Generated(ch.value)), Nop)
    case Handoff(x) => (Finish(r, Generated(x)), Spawn(WriteBack(x, r.ttl)))
    case Unlock(out) => (Finish(r, out), Release)
    case Stamp(out) =>
      (Done(out), if c.lang.Go? then NoteCreated else if Records(c) then Note else Nop)
    case _ => (pc, Nop)
  }

  /** The program of every thread: the next program point and the effect on the shared state. */
  function Local(c: Config, job: Job, pc: PC, v: View, ch: Choice): (PC, Cmd)
    requires Can(c, pc, v, ch)
  {
    match pc
    case LockWait => (if job.Helper? then Signal else Check, Acquire)
    case Signal => (Unlock(Quiet), Nop)
    case TryLock =>
      if !v.free then (Done(Quiet), Nop)
      else (match job case Refresh(_, _) => Cool case StaleRefresh(_, _) => GenReady case _ => Check, Acquire)
    case Check =>
      if job.Call? then
        if ch.Fail? then (Unlock(Failed), Nop)
        else (if v.main.None? then GenReady else Unlock(Cached(v.main.value)), Nop)
      else (if ch.Ok? && v.main.None? && job.WriteBack? then Put(job.value) else Unlock(Quiet), Nop)
    case Cool => (if Cooled(c, v) then GenReady else Unlock(Quiet), Nop)
    case GenReady => (Gen, Nop)
    case Gen => (if ch.Fail? then GiveUp(job) else Put(ch.value), Nop)
    case Put(x) =>
      if !SetLands(c, job, ch) then
        (if job.StaleRefresh? then PutShadow(x) else GiveUp(job), Nop)
      else
        (if c.lang.Python? && c.staleTtl > 0 then PutShadow(x) else Record(x),
         SetMain(Fresh(x, v.now, Ttl(job))))
    case PutShadow(x) =>
      if ch.Fail? then (GiveUp(job), Nop)
      else if job.StaleRefresh? then (Unlock(Quiet), SetShadow(Fresh(x, v.now, c.staleTtl)))
      else (Record(x), SetShadow(Fresh(x, v.now, Ttl(job) + c.staleTtl)))
    case Record(x) =>
      (match job
       case Call(_) => Unlock(Filled(x))
       case Assign(_, _) => Done(Quiet)
       case StaleRefresh(_, _) => PutShadow(x)
       case _ => Unlock(Quiet),
       if Records(c) then Note else Nop)
    case Drop => if ch.Fail? then (Done(Failed), Nop) else (Done(Quiet), DelBoth)
    case _ =>
      if job.Call? then LocalCall(c, job.req, pc, v, ch)
      else if pc.Unlock? then (Done(Quiet), Release)
      else (pc, Nop)
  }

  // ---------------------------------------------------------------------------------------------
  // One step of the whole system
  // ---------------------------------------------------------------------------------------------

  /** The helper of Go's missCooperativeRefresh has closed its channel once it is past `Signal`. */
  predicate Signalled(s: State, pc: PC) {
    pc.CoopWait? && pc.helper.Some? && pc.helper.value < |s.threads| &&
    (s.threads[pc.helper.value].pc.Unlock? || s.threads[pc.helper.value].pc.Done?)
  }

  function ViewOf(s: State, t: Tid): View
    requires t < |s.threads|
  {
    var slot := At(s, s.threads[t].key);
    View(s.now, Read(slot.main, s.now), Read(slot.shadow, s.now), Remaining(slot.main, s.now),
         slot.holder.None?, slot.last, slot.created, Signalled(s, s.threads[t].pc), |s.threads|)
  }

  function Effect(slot: Slot, now: Time, t: Tid, cmd: Cmd): Slot {
    match cmd
    case SetMain(e) => slot.(main := Some(e))
    case SetShadow(e) => slot.(shadow := Some(e))
    case DelBoth => slot.(main := None, shadow := None)
    case Acquire => slot.(holder := Some(t))
    case Release => slot.(holder := None)
    case Note => slot.(last := Some(now))
    case NoteCreated => slot.(created := Some(now))
    case _ => slot
  }

  /** The thread after a step; a worker leaving `Cool` for the generator remembers the clock. */
  function Advance(th: Thread, pc': PC, now: Time): Thread {
    th.(pc := pc', passed := if th.pc.Cool? && pc'.GenReady? then now else th.passed)
  }

  function Move(s: State, t: Tid, pc': PC, cmd: Cmd): State
    requires t < |s.threads|
  {
    var th := s.threads[t];
    var moved := s.threads[t := Advance(th, pc', s.now)];
    State(s.now,
          s.slots[th.key := Effect(At(s, th.key), s.now, t, cmd)],
          if cmd.Spawn? then moved + [Thread(th.key, cmd.job, InitialPc(cmd.job), 0)] else moved)
  }

  datatype Event =
    | Begin(key: Key, job: Job)                            // a caller arrives
    | Step(tid: Tid, choice: Choice)                       // a thread takes one step
    | Tick(ticks: nat)                                     // time passes, entries may expire
    | Evict(key: Key)                                      // the main key disappears
    | EvictShadow(key: Key)                                // the shadow key disappears
    | Foreign(key: Key, value: Value, ttl: int)            // another process writes the main key
    | ForeignShadow(key: Key, value: Value, ttl: int)      // another process writes the shadow key

  /** Callers may start calls, direct Sets and (in Python) deletes.  A Go caller passes a generator. */
  predicate Admissible(c: Config, job: Job) {
    || job.Assign?
    || (job.Remove? && c.lang.Python?)
    || (job.Call? && (c.lang.Go? ==> job.req.gen.Some?))
  }

  predicate Enabled(c: Config, s: State, e: Event) {
    match e
    case Begin(_, job) => Admissible(c, job)
    case Step(t, ch) => t < |s.threads| && Can(c, s.threads[t].pc, ViewOf(s, t), ch)
    case _ => true
  }

  /** What thread t does under choice ch. */
  function Act(c: Config, s: State, t: Tid, ch: Choice): (PC, Cmd)
    requires Enabled(c, s, Step(t, ch))
  {
    Local(c, s.threads[t].job, s.threads[t].pc, ViewOf(s, t), ch)
  }

  function Apply(c: Config, s: State, e: Event): State
    requires Enabled(c, s, e)
  {
    match e
    case Begin(k, job) =>
      s.(slots := s.slots[k := At(s, k)], threads := s.threads + [Thread(k, job, InitialPc(job), 0)])
    case Step(t, ch) => var (pc', cmd) := Act(c, s, t, ch); Move(s, t, pc', cmd)
    case Tick(d) => s.(now := s.now + d)
    case Evict(k) => s.(slots := s.slots[k := At(s, k).(main := None)])
    case EvictShadow(k) => s.(slots := s.slots[k := At(s, k).(shadow := None)])
    case Foreign(k, v, ttl) => s.(slots := s.slots[k := At(s, k).(main := Some(Fresh(v, s.now, ttl)))])
    case ForeignShadow(k, v, ttl) =>
      s.(slots := s.slots[k := At(s, k).(shadow := Some(Fresh(v, s.now, ttl)))])
  }

  // ---------------------------------------------------------------------------------------------
  // Runs
  // ---------------------------------------------------------------------------------------------

  /** A run: a start state followed by events, each with the state it leads to. */
  datatype Run = Start(first: State) | Then(prev: Run, event: Event, state: State)

  function Last(r: Run): State {
    match r case Start(s) => s case Then(_, _, s) => s
  }

  function First(r: Run): State {
    match r case Start(s) => s case Then(p, _, _) => First(p)
  }

  /** What happened in a run, in order.  The machine is deterministic: the start state and these events
      fix every state of the run. */
  function Events(r: Run): seq<Event> {
    match r case Start(_) => [] case Then(p, e, _) => Events(p) + [e]
  }

  /** A new handler: nothing running, no key locked, no time recorded; Redis may hold anything. */
  predicate Init(s: State) {
    s.threads == [] &&
    forall k <- s.slots :: s.slots[k].holder.None? && s.slots[k].last.None? && s.slots[k].created.None?
  }

  predicate IsRun(c: Config, r: Run) {
    match r
    case Start(s) => Init(s)
    case Then(p, e, s) => IsRun(c, p) && Enabled(c, Last(p), e) && s == Apply(c, Last(p), e)
  }

  /** Every call of k uses the miss policy p. */
  predicate OnlyMiss(r: Run, k: Key, p: Miss) {
    r.Then? ==>
      OnlyMiss(r.prev, k, p) &&
      (r.event.Begin? && r.event.key == k && r.event.job.Call? ==> r.event.job.req.miss == p)
  }

  /** Every call of k has background refresh disabled. */
  predicate OnlyDisabled(r: Run, k: Key) {
    r.Then? ==>
      OnlyDisabled(r.prev, k) &&
      (r.event.Begin? && r.event.key == k && r.event.job.Call? ==> r.event.job.req.noRefresh)
  }

  predicate Live(s: State, k: Key) {
    Alive(At(s, k).main, s.now)
  }
}
