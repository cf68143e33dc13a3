/** The synchronous Python handler as written: methods that change Redis, the keyed lock, the last-write
    map and the executor's queue.  Each is proved to do what the protocol's thread program does when
    nothing interferes, and to leave every other key alone. */
module PythonHandler {
  import opened Vocabulary
  import opened Protocol
  import opened Locking
  import opened Policies
  import opened Keys
  import opened KeyedLocks
  import opened RedisStore
  import opened Undisturbed
  import opened Meaning

  class CacheHandler {
    const c: Config
    const prefix: string
    const defaults: Defaults
    const redis: Redis
    const lock: KeyedMutex
    var lastWrite: map<string, Time>
    var tasks: seq<Task>

    constructor (prefix: string, defaults: Defaults, cooldown: int, dedup: int, staleTtl: int, redis: Redis)
      ensures Valid() && this.redis == redis && this.prefix == prefix && this.defaults == defaults
      ensures c == Config(Python, cooldown, dedup, staleTtl)
      ensures fresh(lock) && lock.locks == map[] && lastWrite == map[] && tasks == []
    {
      this.c := Config(Python, cooldown, dedup, staleTtl);
      this.prefix, this.defaults, this.redis := prefix, defaults, redis;
      this.lock := new KeyedMutex();
      this.lastWrite, this.tasks := map[], [];
    }

    ghost predicate Valid()
      reads lock
    {
      c.lang.Python? && lock.Valid()
    }

    /** The state of one key as the protocol sees it. */
    ghost function SlotOf(key: Key): Slot
      reads this, redis, lock, lock.locks.Values
    {
      Slot(Find(redis.data, FullKey(prefix, key)), Find(redis.data, ShadowKey(prefix, key)),
           if lock.Busy(FullKey(prefix, key)) then Some(0) else None,
           Find(lastWrite, FullKey(prefix, key)), None)
    }

    /** What is left of an undisturbed job from here. */
    ghost function Rest(key: Key, job: Job, pc: PC, o: Oracle): Alone
      requires Shape(c, job, pc)
      reads this, redis, lock, lock.locks.Values
    {
      Solo(c, key, job, pc, SlotOf(key), redis.now, o, tasks)
    }

    // -------------------------------------------------------------------------------------------
    // Direct operations
    // -------------------------------------------------------------------------------------------

    method Get(key: Key, up: bool) returns (f: Fetched)
      requires Valid()
      ensures f == Fetch(SlotOf(key).main, redis.now, up)
      ensures f == Fetch(Find(redis.data, if prefix == "" then key else prefix + ":" + key), redis.now, up)
    {
      f := redis.Get(FullKey(prefix, key), up);
    }

    /** set: the main key, then the shadow, then the time of the write.  A failing command raises, and leaves
        what was done before it; ok is false then. */
    method Set(key: Key, value: Value, ttl: int, o: Oracle) returns (ok: bool)
      requires Valid()
      modifies this`lastWrite, redis`data
      ensures Valid()
      ensures ok <==> SetSucceeds(c, ttl, o)
      ensures SlotOf(key) == WithSet(c, old(SlotOf(key)), value, ttl, redis.now, o)
      ensures forall cell: string | cell != (if prefix == "" then key else prefix + ":" + key)
                                    && cell != (if prefix == "" then key else prefix + ":" + key) + ":stale" ::
                Find(redis.data, cell) == old(Find(redis.data, cell))
      ensures forall k | Apart(k, key) :: SlotOf(k) == old(SlotOf(k))
    {
      var fullKey := FullKey(prefix, key);
      BothSpellings(prefix, key);
      Collisions(prefix, key, key);
      forall k ensures Apart(k, key) ==> Separate(k, key) { SeparateKeys(k, key); }
      ok := redis.SetEx(fullKey, value, ttl, SetKey !in o.down);
      if !ok {
        return;
      }
      if c.staleTtl > 0 {
        ok := redis.SetEx(fullKey + STALE, value, ttl + c.staleTtl, SetStaleKey !in o.down);
        if !ok {
          return;
        }
      }
      RecordWrite(fullKey);
    }

    /** The four cells of two keys differ. */
    ghost predicate Separate(a: Key, b: Key) {
      && FullKey(prefix, a) != FullKey(prefix, b)
      && ShadowKey(prefix, a) != ShadowKey(prefix, b)
      && FullKey(prefix, a) != ShadowKey(prefix, b)
      && ShadowKey(prefix, a) != FullKey(prefix, b)
    }

    lemma SeparateKeys(a: Key, b: Key)
      ensures Apart(a, b) ==> Separate(a, b)
    {
      Collisions(prefix, a, b);
      Collisions(prefix, b, a);
    }

    method Delete(key: Key, up: bool) returns (ok: bool)
      requires Valid()
      modifies redis`data
      ensures Valid() && ok == up
      ensures SlotOf(key) == if ok then old(SlotOf(key)).(main := None, shadow := None) else old(SlotOf(key))
      ensures forall cell: string | cell != (if prefix == "" then key else prefix + ":" + key)
                                    && cell != (if prefix == "" then key else prefix + ":" + key) + ":stale" ::
                Find(redis.data, cell) == old(Find(redis.data, cell))
      ensures forall k | Apart(k, key) :: SlotOf(k) == old(SlotOf(k))
    {
      var fullKey := FullKey(prefix, key);
      BothSpellings(prefix, key);
      forall k ensures Apart(k, key) ==> Separate(k, key) { SeparateKeys(k, key); }
      ok := redis.Delete({fullKey, fullKey + STALE}, up);
    }

    // -------------------------------------------------------------------------------------------
    // Timestamps
    // -------------------------------------------------------------------------------------------

    method RecordWrite(fullKey: string)
      modifies this`lastWrite
      ensures lastWrite == if Records(c) then old(lastWrite)[fullKey := redis.now] else old(lastWrite)
    {
      if c.cooldown > 0 || c.dedup > 0 {
        lastWrite := lastWrite[fullKey := redis.now];
      }
    }

    method ShouldRefresh(key: Key) returns (b: bool)
      ensures b == Cooled(c, ViewAlone(SlotOf(key), redis.now))
    {
      var fullKey := FullKey(prefix, key);
      if c.cooldown <= 0 || fullKey !in lastWrite {
        return true;
      }
      b := redis.now - lastWrite[fullKey] >= c.cooldown;
    }

    method CheckDedup(key: Key, ttl: int) returns (b: bool)
      ensures b == WroteRecently(c, ttl, ViewAlone(SlotOf(key), redis.now))
    {
      var fullKey := FullKey(prefix, key);
      if c.dedup <= 0 || fullKey !in lastWrite {
        return false;
      }
      b := redis.now - lastWrite[fullKey] < Min(c.dedup, ttl);
    }

    // -------------------------------------------------------------------------------------------
    // Miss fill strategies
    // -------------------------------------------------------------------------------------------

    /** The next step of an undisturbed job. */
    lemma Next(key: Key, job: Job, pc: PC, o: Oracle)
      requires Shape(c, job, pc) && CanAlone(c, job, pc, SlotOf(key), redis.now, o)
      ensures var (pc', cmd) := SoloAct(c, job, pc, SlotOf(key), redis.now, o);
              Shape(c, job, pc') &&
              Rest(key, job, pc, o)
                == Solo(c, key, job, pc', Effect(SlotOf(key), redis.now, 0, cmd), redis.now, o,
                        Queued(tasks, key, SlotOf(key), cmd))
    {
      SoloStep(c, key, job, pc, SlotOf(key), redis.now, o, tasks);
    }

    /** A fill policy has brought the undisturbed call described by `was` to its end, or (None) to the wait
        for a lock that somebody holds. */
    ghost predicate Reaches(key: Key, r: Request, was: Alone, out: Option<Outcome>, o: Oracle)
      reads this, redis, lock, lock.locks.Values
    {
      match out
      case None => was == Alone(SlotOf(key), None, tasks)
      case Some(x) => Shape(c, Call(r), Finish(r, x)) && was == Rest(key, Call(r), Finish(r, x), o)
    }

    /** Entering the `with self._lock.acquire(...)` block, or waiting for the present holder. */
    method Acquire(key: Key) returns (ch: Channel, waits: bool)
      requires Valid()
      modifies lock, lock.locks.Values
      ensures Valid() && fresh(lock.locks.Values - old(lock.locks.Values))
      ensures FullKey(prefix, key) in lock.locks && lock.locks[FullKey(prefix, key)] == ch && ch.full
      ensures waits <==> old(SlotOf(key)).holder.Some?
      ensures SlotOf(key) == if waits then old(SlotOf(key)) else old(SlotOf(key)).(holder := Some(0))
      ensures forall k | Apart(k, key) :: SlotOf(k) == old(SlotOf(k))
    {
      forall k ensures Apart(k, key) ==> Separate(k, key) { SeparateKeys(k, key); }
      ch, waits := lock.Lock(FullKey(prefix, key));
    }

    /** Leaving the block. */
    method Leave(ch: Channel, ghost key: Key)
      requires Valid() && ch.full
      requires FullKey(prefix, key) in lock.locks && lock.locks[FullKey(prefix, key)] == ch
      modifies ch
      ensures Valid() && !lock.Busy(FullKey(prefix, key))
      ensures SlotOf(key) == old(SlotOf(key)).(holder := None)
      ensures forall k | Apart(k, key) :: SlotOf(k) == old(SlotOf(k))
    {
      forall k ensures Apart(k, key) ==> Separate(k, key) { SeparateKeys(k, key); }
      lock.Unlock(ch, FullKey(prefix, key));
    }

    lemma Idle(key: Key)
      ensures SlotOf(key).holder.None? <==> !lock.Busy(FullKey(prefix, key))
    {
    }

    /** lock, look again, generate, write, return; the cooperative fill with the lock in hand is the same */
    method MissLocked(key: Key, r: Request, ghost pc: PC, o: Oracle) returns (out: Option<Outcome>)
      requires Valid() && (pc.LockWait? || pc.CoopWait?) && Shape(c, Call(r), pc)
      requires pc.CoopWait? ==> !lock.Busy(FullKey(prefix, key))
      modifies this`lastWrite, redis`data, lock, lock.locks.Values
      ensures Valid() && fresh(lock.locks.Values - old(lock.locks.Values))
      ensures Reaches(key, r, old(Rest(key, Call(r), pc, o)), out, o)
      ensures out.None? <==> old(SlotOf(key)).holder.Some?
      ensures forall k | Apart(k, key) :: SlotOf(k) == old(SlotOf(k))
    {
      hide Solo;
      hide Local;
      hide Shape;
      Idle(key);
      hide SlotOf;
      ghost var before := SlotOf(key);
      var ch, waits := Acquire(key);
      if waits {
        SoloBlocked(c, key, Call(r), before, redis.now, o, tasks);
        return None;
      }
      LockedChain(c, key, r, pc, before, redis.now, o, tasks);
      var done := FillUnderLock(key, r, before.main, o);
      ReleaseChain(c, key, r, done, SlotOf(key), redis.now, o, tasks);
      Leave(ch, key);
      out := Some(done);
    }

    /** The body of the `with` block. */
    method FillUnderLock(key: Key, r: Request, ghost main: Option<Entry>, o: Oracle) returns (done: Outcome)
      requires Valid() && SlotOf(key).main == main
      requires Shape(c, Call(r), SecondLook(main, o))
      modifies this`lastWrite, redis`data
      ensures Valid() && Shape(c, Call(r), Unlock(done))
      ensures old(Rest(key, Call(r), SecondLook(main, o), o)) == Rest(key, Call(r), Unlock(done), o)
      ensures forall k | Apart(k, key) :: SlotOf(k) == old(SlotOf(k))
    {
      hide Solo;
      hide Local;
      hide Shape;
      hide SlotOf;
      var f := Get(key, LockedGet !in o.down);
      match f
      case Broken => done := Failed;
      case Found(v) => done := Cached(v);
      case Absent =>
        if o.gen.None? {
          return Failed;
        }
        var ok := FillLocked(key, Call(r), o.gen.value, r.ttl, o);
        done := if ok then Filled(o.gen.value) else Failed;
    }

    /** Where the protocol's caller is after its second look and its generator. */
    ghost function SecondLook(main: Option<Entry>, o: Oracle): PC
      reads redis
    {
      var seen := Read(main, redis.now);
      if LockedGet in o.down then Unlock(Failed)
      else if seen.Some? then Unlock(Cached(seen.value))
      else if o.gen.None? then Unlock(Failed) else Put(o.gen.value)
    }

    /** The `set` that fills or refreshes a key. */
    method FillLocked(key: Key, ghost job: Job, value: Value, ttl: int, o: Oracle) returns (ok: bool)
      requires Valid() && Shape(c, job, Put(value)) && ttl == Ttl(job)
      modifies this`lastWrite, redis`data
      ensures Valid() && Shape(c, job, AfterSet(job, value, ok))
      ensures old(Rest(key, job, Put(value), o)) == Rest(key, job, AfterSet(job, value, ok), o)
      ensures forall k | Apart(k, key) :: SlotOf(k) == old(SlotOf(k))
    {
      hide Solo;
      hide SlotOf;
      hide Shape;
      SetChain(c, key, job, SlotOf(key), value, redis.now, o, tasks);
      ok := Set(key, value, ttl, o);
    }

    method MissAsync(key: Key, r: Request, o: Oracle) returns (out: Outcome)
      requires Valid() && Shape(c, Call(r), FreeReady) && r.miss.Async?
      modifies this`tasks
      ensures Reaches(key, r, old(Rest(key, Call(r), FreeReady, o)), Some(out), o)
      ensures forall k :: SlotOf(k) == old(SlotOf(k))
    {
      hide Solo;
      FreeChain(c, key, r, SlotOf(key), redis.now, o, tasks);
      if o.gen.None? {
        return Failed;
      }
      tasks := tasks + [Task(key, WriteBack(o.gen.value, r.ttl))];
      out := Generated(o.gen.value);
    }

    method MissStaleOrSync(key: Key, r: Request, o: Oracle) returns (out: Option<Outcome>)
      requires Valid() && Shape(c, Call(r), StaleGet)
      modifies this, redis`data, lock, lock.locks.Values
      ensures Valid() && fresh(lock.locks.Values - old(lock.locks.Values))
      ensures Reaches(key, r, old(Rest(key, Call(r), StaleGet, o)), out, o)
      ensures forall k | Apart(k, key) :: SlotOf(k) == old(SlotOf(k))
    {
      hide Solo;
      hide Local;
      hide Shape;
      ShadowChain(c, key, r, SlotOf(key), redis.now, o, tasks);
      BothSpellings(prefix, key);
      var raw := redis.Get(FullKey(prefix, key) + STALE, ShadowGet !in o.down);
      match raw
      case Broken => out := Some(Failed);
      case Found(v) =>
        tasks := tasks + [Task(key, Refresh(r.ttl, r.gen))];
        out := Some(if ShadowDecode in o.down then Failed else Stale(v));
      case Absent =>
        out := MissLocked(key, r, LockWait, o);
    }

    /** _miss_cooperative: with the lock, or after the time-out without it. */
    method MissCooperative(key: Key, r: Request, o: Oracle) returns (out: Option<Outcome>)
      requires Valid() && Shape(c, Call(r), CoopWait(None))
      modifies this`lastWrite, redis`data, lock, lock.locks.Values
      ensures Valid() && fresh(lock.locks.Values - old(lock.locks.Values))
      ensures out.Some? && Reaches(key, r, old(Rest(key, Call(r), CoopWait(None), o)), out, o)
      ensures forall k | Apart(k, key) :: SlotOf(k) == old(SlotOf(k))
    {
      hide Solo;
      Idle(key);
      if lock.Busy(FullKey(prefix, key)) {
        TimeoutChain(c, key, r, CoopWait(None), SlotOf(key), redis.now, o, tasks);
        FreeChain(c, key, r, SlotOf(key), redis.now, o, tasks);
        out := Some(if o.gen.None? then Failed else Generated(o.gen.value));
      } else {
        out := MissLocked(key, r, CoopWait(None), o);
      }
    }

    method FillMiss(key: Key, r: Request, o: Oracle) returns (out: Option<Outcome>)
      requires Valid() && Shape(c, Call(r), Dispatch)
      modifies this, redis`data, lock, lock.locks.Values
      ensures Valid() && fresh(lock.locks.Values - old(lock.locks.Values))
      ensures Reaches(key, r, old(Rest(key, Call(r), Dispatch, o)), out, o)
      ensures forall k | Apart(k, key) :: SlotOf(k) == old(SlotOf(k))
    {
      hide Solo;
      Next(key, Call(r), Dispatch, o);
      if r.gen.None? && !r.miss.FailFast? {
        return Some(Failed);
      }
      match r.miss
      case Sync => out := MissLocked(key, r, LockWait, o);
      case Async =>
        var generated := MissAsync(key, r, o);
        out := Some(generated);
      case StaleOrSync => out := MissStaleOrSync(key, r, o);
      case FailFast => out := Some(Missed);
      case Cooperative => out := MissCooperative(key, r, o);
    }

    // -------------------------------------------------------------------------------------------
    // get_or_refresh
    // -------------------------------------------------------------------------------------------

    /** Queues a background refresh if the hit policy asks for one; false when the check raises. */
    method HandleHitRefresh(key: Key, r: Request, o: Oracle) returns (ok: bool)
      requires Valid()
      modifies this`tasks
      ensures var v := ViewAlone(old(SlotOf(key)), redis.now);
              && (ok <==> !HitRaises(c, r, v, o))
              && tasks
                   == if HitLaunches(c, r, v, o) then old(tasks) + [Task(key, Refresh(r.ttl, r.gen))] else old(tasks)
      ensures forall k :: SlotOf(k) == old(SlotOf(k))
    {
      ok := true;
      if r.gen.None? || r.hit.NoHit? {
        return;
      }
      var fires := true;
      if !r.hit.OnHit? {
        var n := redis.TimeToLive(FullKey(prefix, key), AskTtl !in o.down);
        if n.None? {
          return false;
        }
        var remaining := n.value;
        if remaining <= 0 {
          return;
        }
        match r.hit
        case Ahead(threshold) =>
          if r.ttl == 0 {
            return false;
          }
          fires := remaining as real / r.ttl as real < threshold;
        case OlderThan(age) => fires := (r.ttl - remaining) as real > age;
        case _ => fires := o.draw;
      }
      if fires {
        var cooled := ShouldRefresh(key);
        if cooled {
          tasks := tasks + [Task(key, Refresh(r.ttl, r.gen))];
        }
      }
    }

    /** The hit policy of one call, with its parameter. */
    method ResolveHitPolicy(opts: Options) returns (hit: Hit)
      ensures hit == ResolveHit(Python, defaults, opts)
      ensures match if opts.hit.Some? then opts.hit.value else defaults.hit
              case KindDefault => hit.OnHit?
              case KindAhead =>
                hit == Ahead(if opts.threshold.Some? then opts.threshold.value else defaults.threshold)
              case KindProbabilistic => hit.Probabilistic?
              case KindOlderThan => hit == OlderThan(if opts.age.Some? then opts.age.value else defaults.age)
              case KindNone => hit.NoHit?
    {
      match if opts.hit.Some? then opts.hit.value else defaults.hit
      case KindDefault => hit := OnHit;
      case KindAhead => hit := Ahead(if opts.threshold.Some? then opts.threshold.value else defaults.threshold);
      case KindProbabilistic => hit := Probabilistic;
      case KindOlderThan => hit := OlderThan(if opts.age.Some? then opts.age.value else defaults.age);
      case KindNone => hit := NoHit;
    }

    /** The keyword arguments of one call, on top of the handler's; a per-call DEFAULT is falsy. */
    method ResolveCall(gen: Option<Generator>, opts: Options) returns (r: Request)
      requires Valid()
      ensures r == Resolve(Python, defaults, opts, gen)
      ensures r.ttl == (if opts.ttl.Some? then opts.ttl.value else defaults.ttl)
      ensures var asked := if opts.miss.Some? && opts.miss.value.Use? then opts.miss.value else defaults.miss;
              r.miss == if asked.UseDefault? then Sync else asked.miss
      ensures match if opts.hit.Some? then opts.hit.value else defaults.hit
              case KindDefault => r.hit.OnHit?
              case KindAhead =>
                r.hit == Ahead(if opts.threshold.Some? then opts.threshold.value else defaults.threshold)
              case KindProbabilistic => r.hit.Probabilistic?
              case KindOlderThan => r.hit == OlderThan(if opts.age.Some? then opts.age.value else defaults.age)
              case KindNone => r.hit.NoHit?
      ensures r.err == (if opts.err.Some? then opts.err.value else defaults.err)
      ensures r.noRefresh == opts.noRefresh && r.gen == gen
      ensures Shape(c, Call(r), Look)
    {
      hide ResolveHit;
      var miss := defaults.miss;
      if opts.miss.Some? && opts.miss.value.Use? {
        miss := opts.miss.value;
      }
      if miss.UseDefault? {
        miss := Use(Sync);
      }
      var hit := ResolveHitPolicy(opts);
      r := Request(if opts.ttl.Some? then opts.ttl.value else defaults.ttl, miss.miss, hit, opts.noRefresh,
                   if opts.err.Some? then opts.err.value else defaults.err, gen);
    }

    /** What the meaning of undisturbed calls promises for this one. */
    lemma Promised(key: Key, r: Request, o: Oracle)
      requires Valid()
      ensures var was := Rest(key, Call(r), Look, o);
              && (r.err.Surface? ==> was.out != Some(Zero))
              && (r.err.ZeroValue? ==> was.out != Some(Failed))
              && (was.out == Some(Missed) <==> r.miss.FailFast? && Misses(c, r, SlotOf(key), redis.now, o))
              && (r.miss.Sync? && r.ttl > 0 && r.gen.Some? && o.down == {} && o.gen.Some?
                  && SlotOf(key).holder.None? && Gone(SlotOf(key).main, redis.now) ==>
                    was.out == Some(Filled(o.gen.value))
                    && was.slot.main == Some(Entry(o.gen.value, Some(redis.now + r.ttl))))
    {
      hide Solo;
      hide SlotOf;
      AnswerMeans(c, key, r, SlotOf(key), redis.now, o, tasks);
      if r.miss.Sync? && r.ttl > 0 && r.gen.Some? && o.down == {} && o.gen.Some?
         && SlotOf(key).holder.None? && Gone(SlotOf(key).main, redis.now) {
        SyncStores(c, key, r, SlotOf(key), redis.now, o, tasks);
      }
    }

    /** The undisturbed call does what the protocol's thread does from its first look to its return, or
        (None) to the wait for a lock that somebody holds. */
    method GetOrRefresh(key: Key, gen: Option<Generator>, opts: Options, o: Oracle) returns (out: Option<Outcome>)
      requires Valid()
      modifies this, redis`data, lock, lock.locks.Values
      ensures Valid() && fresh(lock.locks.Values - old(lock.locks.Values))
      ensures var r := Resolve(Python, defaults, opts, gen);
              Alone(SlotOf(key), out, tasks) == old(Rest(key, Call(r), Look, o))
      ensures (if opts.err.Some? then opts.err.value else defaults.err).Surface? ==> out != Some(Zero)
      ensures (if opts.err.Some? then opts.err.value else defaults.err).ZeroValue? ==> out != Some(Failed)
      ensures var ttl := if opts.ttl.Some? then opts.ttl.value else defaults.ttl;
              var last := old(SlotOf(key)).last;
              out == Some(Missed) <==>
                (if opts.miss.Some? && opts.miss.value.Use? then opts.miss.value else defaults.miss) == Use(FailFast)
                && FirstGet !in o.down && Gone(old(SlotOf(key)).main, redis.now)
                && !(SecondGet in o.down && c.dedup > 0 && last.Some?
                     && redis.now - last.value < c.dedup && redis.now - last.value < ttl)
      ensures var ttl := if opts.ttl.Some? then opts.ttl.value else defaults.ttl;
              var miss := if opts.miss.Some? && opts.miss.value.Use? then opts.miss.value else defaults.miss;
              (miss == Use(Sync) || miss.UseDefault?) && ttl > 0 && gen.Some? && o.down == {} && o.gen.Some?
              && old(SlotOf(key)).holder.None? && Gone(old(SlotOf(key)).main, redis.now) ==>
                out == Some(Filled(o.gen.value)) && SlotOf(key).main == Some(Entry(o.gen.value, Some(redis.now + ttl)))
      ensures forall k | Apart(k, key) :: SlotOf(k) == old(SlotOf(k))
    {
      hide Solo;
      hide Local;
      hide SlotOf;
      hide Resolve;
      hide Gone;
      hide Shape;
      var r := ResolveCall(gen, opts);
      Promised(key, r, o);
      out := Serve(key, r, o);
    }

    /** The call with its options resolved. */
    method Serve(key: Key, r: Request, o: Oracle) returns (out: Option<Outcome>)
      requires Valid() && Shape(c, Call(r), Look)
      modifies this, redis`data, lock, lock.locks.Values
      ensures Valid() && fresh(lock.locks.Values - old(lock.locks.Values))
      ensures Alone(SlotOf(key), out, tasks) == old(Rest(key, Call(r), Look, o))
      ensures forall k | Apart(k, key) :: SlotOf(k) == old(SlotOf(k))
    {
      hide Solo;
      hide Local;
      hide SlotOf;
      LookChain(c, key, r, SlotOf(key), redis.now, o, tasks);
      var f := Get(key, FirstGet !in o.down);
      match f
      case Broken =>
        SoloDone(c, key, Call(r), Settle(r, Failed), SlotOf(key), redis.now, o, tasks);
        out := Some(Settle(r, Failed));
      case Found(v) =>
        SoloDone(c, key, Call(r), Cached(v), SlotOf(key), redis.now, o, tasks);
        var answer := Answer(key, r, v, o);
        out := Some(answer);
      case Absent =>
        out := AnswerMiss(key, r, o);
    }

    /** A miss: the deduplication check, the fill policy, and the end of the call. */
    method AnswerMiss(key: Key, r: Request, o: Oracle) returns (out: Option<Outcome>)
      requires Valid() && Shape(c, Call(r), Dedup)
      modifies this, redis`data, lock, lock.locks.Values
      ensures Valid() && fresh(lock.locks.Values - old(lock.locks.Values))
      ensures Alone(SlotOf(key), out, tasks) == old(Rest(key, Call(r), Dedup, o))
      ensures forall k | Apart(k, key) :: SlotOf(k) == old(SlotOf(k))
    {
      hide Solo;
      hide Local;
      hide SlotOf;
      var again := Retry(key, r, o);
      if again.Some? {
        return again;
      }
      out := FillMiss(key, r, o);
      if out.Some? {
        var answer := Conclude(key, r, out.value, o);
        out := Some(answer);
      }
    }

    /** A hit: refresh in the background if asked to, and answer. */
    method Answer(key: Key, r: Request, value: Value, o: Oracle) returns (out: Outcome)
      requires Valid() && Shape(c, Call(r), Trigger(value))
      modifies this`tasks
      ensures Alone(SlotOf(key), Some(out), tasks)
                == if r.noRefresh then Alone(old(SlotOf(key)), Some(Cached(value)), old(tasks))
                   else old(Rest(key, Call(r), Trigger(value), o))
      ensures forall k :: SlotOf(k) == old(SlotOf(k))
    {
      hide Solo;
      if r.noRefresh {
        return Cached(value);
      }
      HitChain(c, key, r, value, SlotOf(key), redis.now, o, tasks);
      var ok := HandleHitRefresh(key, r, o);
      out := if ok then Cached(value) else Settle(r, Failed);
      SoloDone(c, key, Call(r), out, SlotOf(key), redis.now, o, tasks);
    }

    /** The deduplication pre-flight: a second look if this process wrote the key recently; a failing one
        ends the call. */
    method Retry(key: Key, r: Request, o: Oracle) returns (again: Option<Outcome>)
      requires Valid() && Shape(c, Call(r), Dedup)
      ensures again.Some? ==> Rest(key, Call(r), Dedup, o) == Alone(SlotOf(key), again, tasks)
      ensures again.None? ==>
                Shape(c, Call(r), Dispatch) && Rest(key, Call(r), Dedup, o) == Rest(key, Call(r), Dispatch, o)
    {
      hide Solo;
      DedupChain(c, key, r, SlotOf(key), redis.now, o, tasks);
      var recent := CheckDedup(key, r.ttl);
      if !recent {
        return None;
      }
      var f := Get(key, SecondGet !in o.down);
      if f.Absent? {
        return None;
      }
      var answer := if f.Found? then Cached(f.value) else Settle(r, Failed);
      SoloDone(c, key, Call(r), answer, SlotOf(key), redis.now, o, tasks);
      again := Some(answer);
    }

    /** The end of a miss: the probabilistic time stamp and the error policy. */
    method Conclude(key: Key, r: Request, filled: Outcome, o: Oracle) returns (out: Outcome)
      requires Valid() && Shape(c, Call(r), Finish(r, filled))
      modifies this`lastWrite
      ensures Valid()
      ensures Alone(SlotOf(key), Some(out), tasks) == old(Rest(key, Call(r), Finish(r, filled), o))
      ensures forall k | Apart(k, key) :: SlotOf(k) == old(SlotOf(k))
    {
      hide Solo;
      FinishChain(c, key, r, filled, SlotOf(key), redis.now, o, tasks);
      if Success(filled) && r.hit.Probabilistic? {
        Restamp(key);
      }
      out := Settle(r, filled);
    }

    /** The write time recorded after a fill under PROBABILISTIC. */
    method Restamp(key: Key)
      requires Valid()
      modifies this`lastWrite
      ensures Valid()
      ensures SlotOf(key) == if Records(c) then old(SlotOf(key)).(last := Some(redis.now)) else old(SlotOf(key))
      ensures forall k | Apart(k, key) :: SlotOf(k) == old(SlotOf(k))
    {
      forall k ensures Apart(k, key) ==> Separate(k, key) { SeparateKeys(k, key); }
      RecordWrite(FullKey(prefix, key));
    }

    // -------------------------------------------------------------------------------------------
    // Background workers
    // -------------------------------------------------------------------------------------------

    /** try_acquire on the key's lock */
    method TryAcquire(key: Key) returns (ch: Channel, ok: bool)
      requires Valid()
      modifies lock, lock.locks.Values
      ensures Valid() && fresh(lock.locks.Values - old(lock.locks.Values))
      ensures FullKey(prefix, key) in lock.locks && lock.locks[FullKey(prefix, key)] == ch && ch.full
      ensures ok <==> old(SlotOf(key)).holder.None?
      ensures SlotOf(key) == if ok then old(SlotOf(key)).(holder := Some(0)) else old(SlotOf(key))
      ensures forall k | Apart(k, key) :: SlotOf(k) == old(SlotOf(k))
    {
      forall k ensures Apart(k, key) ==> Separate(k, key) { SeparateKeys(k, key); }
      ch, ok := lock.TryLock(FullKey(prefix, key));
    }

    method BgWrite(key: Key, ttl: int, value: Value, o: Oracle)
      requires Valid()
      modifies this`lastWrite, redis`data, lock, lock.locks.Values
      ensures Valid() && fresh(lock.locks.Values - old(lock.locks.Values))
      ensures Alone(SlotOf(key), Some(Quiet), tasks) == old(Rest(key, WriteBack(value, ttl), TryLock, o))
      ensures forall k | Apart(k, key) :: SlotOf(k) == old(SlotOf(k))
    {
      hide Solo;
      hide Local;
      hide SlotOf;
      ghost var job := WriteBack(value, ttl);
      ghost var before := SlotOf(key);
      var ch, ok := TryAcquire(key);
      if !ok {
        BusyChain(c, key, job, before, redis.now, o, tasks);
        return;
      }
      WriteBackChain(c, key, value, ttl, before, redis.now, o, tasks);
      var present := Present(key, o);
      if present == Some(false) {
        var _ := FillLocked(key, job, value, ttl, o);
      }
      WorkerReleases(c, key, job, SlotOf(key), redis.now, o, tasks);
      Leave(ch, key);
    }

    method Present(key: Key, o: Oracle) returns (b: Option<bool>)
      ensures b == if LockedGet in o.down then None else Some(Read(SlotOf(key).main, redis.now).Some?)
    {
      b := redis.Exists(FullKey(prefix, key), LockedGet !in o.down);
    }

    method BgRefresh(key: Key, ttl: int, gen: Generator, o: Oracle)
      requires Valid()
      modifies this`lastWrite, redis`data, lock, lock.locks.Values
      ensures Valid() && fresh(lock.locks.Values - old(lock.locks.Values))
      ensures Alone(SlotOf(key), Some(Quiet), tasks) == old(Rest(key, Refresh(ttl, Some(gen)), TryLock, o))
      ensures forall k | Apart(k, key) :: SlotOf(k) == old(SlotOf(k))
    {
      hide Solo;
      hide Local;
      hide SlotOf;
      ghost var job := Refresh(ttl, Some(gen));
      ghost var before := SlotOf(key);
      var ch, ok := TryAcquire(key);
      if !ok {
        BusyChain(c, key, job, before, redis.now, o, tasks);
        return;
      }
      RefreshChain(c, key, job, before, redis.now, o, tasks);
      var cooled := ShouldRefresh(key);
      if cooled && o.gen.Some? {
        var _ := FillLocked(key, job, o.gen.value, ttl, o);
      }
      WorkerReleases(c, key, job, SlotOf(key), redis.now, o, tasks);
      Leave(ch, key);
    }
  }
}
