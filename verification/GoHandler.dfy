/** The Go handler as written: methods that change Redis, the keyed mutex and the timestamp map, and
    goroutines represented by the queue of tasks they were started for.  Each method is proved to do what
    the protocol's thread program does when nothing interferes, and to leave every other key alone. */
module GoHandler {
  import opened Vocabulary
  import opened Protocol
  import opened Locking
  import opened Policies
  import opened Keys
  import opened KeyedLocks
  import opened RedisStore
  import opened Undisturbed
  import opened Meaning

  const CREATED := "@created"

  /** Two keys that can be used side by side: the timestamp map holds a "@created" cell per key, too. */
  predicate Disjoint(a: Key, b: Key) {
    Apart(a, b) && a != b + CREATED && b != a + CREATED
  }

  class Handler {
    const c: Config
    const prefix: string
    const defaults: Defaults
    const redis: Redis
    const locks: KeyedMutex
    var lastRefresh: map<string, Time>
    var tasks: seq<Task>

    constructor (prefix: string, defaults: Defaults, cooldown: int, dedup: int, staleTtl: int, redis: Redis)
      ensures Valid() && this.redis == redis && this.prefix == prefix && this.defaults == defaults
      ensures c == Config(Go, cooldown, dedup, staleTtl)
      ensures fresh(locks) && locks.locks == map[] && lastRefresh == map[] && tasks == []
    {
      this.c := Config(Go, cooldown, dedup, staleTtl);
      this.prefix, this.defaults, this.redis := prefix, defaults, redis;
      this.locks := new KeyedMutex();
      this.lastRefresh, this.tasks := map[], [];
    }

    ghost predicate Valid()
      reads locks
    {
      c.lang.Go? && locks.Valid()
    }

    /** The state of one key as the protocol sees it. */
    ghost function SlotOf(key: Key): Slot
      reads this, redis, locks, locks.locks.Values
    {
      Slot(Find(redis.data, FullKey(prefix, key)), Find(redis.data, ShadowKey(prefix, key)),
           if locks.Busy(FullKey(prefix, key)) then Some(0) else None,
           Find(lastRefresh, FullKey(prefix, key)), Find(lastRefresh, FullKey(prefix, key) + CREATED))
    }

    /** What is left of an undisturbed job from here. */
    ghost function Rest(key: Key, job: Job, pc: PC, o: Oracle): Alone
      requires Shape(c, job, pc)
      reads this, redis, locks, locks.locks.Values
    {
      Solo(c, key, job, pc, SlotOf(key), redis.now, o, tasks)
    }

    /** The cells of two keys differ. */
    ghost predicate Separate(a: Key, b: Key) {
      && FullKey(prefix, a) != FullKey(prefix, b)
      && ShadowKey(prefix, a) != ShadowKey(prefix, b)
      && FullKey(prefix, a) != ShadowKey(prefix, b)
      && ShadowKey(prefix, a) != FullKey(prefix, b)
      && FullKey(prefix, a) + CREATED != FullKey(prefix, b) + CREATED
      && FullKey(prefix, a) + CREATED != FullKey(prefix, b)
      && FullKey(prefix, a) != FullKey(prefix, b) + CREATED
    }

    lemma CreatedKey(key: Key)
      ensures FullKey(prefix, key + CREATED) == FullKey(prefix, key) + CREATED
    {
      if prefix != "" {
        assert prefix + ":" + (key + CREATED) == (prefix + ":" + key) + CREATED;
      }
    }

    lemma SeparateKeys(a: Key, b: Key)
      ensures Disjoint(a, b) ==> Separate(a, b)
    {
      Collisions(prefix, a, b);
      Collisions(prefix, b, a);
      CreatedKey(a);
      CreatedKey(b);
      FullKeyInjective(prefix, a + CREATED, b);
      FullKeyInjective(prefix, a, b + CREATED);
      AppendInjective(FullKey(prefix, a), FullKey(prefix, b), CREATED);
    }

    // -------------------------------------------------------------------------------------------
    // Direct operations and timestamps
    // -------------------------------------------------------------------------------------------

    method Get(key: Key, up: bool) returns (f: Fetched)
      requires Valid()
      ensures f == Fetch(SlotOf(key).main, redis.now, up)
      ensures f == Fetch(Find(redis.data, if prefix == "" then key else prefix + ":" + key), redis.now, up)
    {
      f := redis.Get(FullKey(prefix, key), up);
    }

    /** Set: the main key, with the default lifetime in place of one that is not positive, and the time
        of the write; a failing SET changes nothing. */
    method Set(key: Key, value: Value, ttl: int, up: bool) returns (ok: bool)
      requires Valid()
      modifies this`lastRefresh, redis`data
      ensures Valid() && ok == up
      ensures !ok ==> SlotOf(key) == old(SlotOf(key))
      ensures ok ==> SlotOf(key) == old(SlotOf(key)).(
                main := Some(Fresh(value, redis.now, if ttl > 0 then ttl else defaults.ttl)),
                last := if Records(c) then Some(redis.now) else old(SlotOf(key)).last)
      ensures forall cell: string | cell != (if prefix == "" then key else prefix + ":" + key) ::
                Find(redis.data, cell) == old(Find(redis.data, cell))
      ensures forall k | Disjoint(k, key) :: SlotOf(k) == old(SlotOf(k))
    {
      Collisions(prefix, key, key);
      forall k ensures Disjoint(k, key) ==> Separate(k, key) { SeparateKeys(k, key); }
      var lifetime := if ttl > 0 then ttl else defaults.ttl;
      var fullKey := FullKey(prefix, key);
      ok := redis.SetDuration(fullKey, value, lifetime, up);
      if !ok {
        return;
      }
      SetLastRefreshNow(fullKey);
    }

    /** setToKey on the shadow key */
    method SetShadow(key: Key, value: Value, ttl: int, up: bool) returns (ok: bool)
      requires Valid()
      modifies redis`data
      ensures Valid() && ok == up
      ensures SlotOf(key)
                == if ok then old(SlotOf(key)).(shadow := Some(Fresh(value, redis.now, ttl))) else old(SlotOf(key))
      ensures forall cell: string | cell != (if prefix == "" then key else prefix + ":" + key) + ":stale" ::
                Find(redis.data, cell) == old(Find(redis.data, cell))
      ensures forall k | Disjoint(k, key) :: SlotOf(k) == old(SlotOf(k))
    {
      BothSpellings(prefix, key);
      Collisions(prefix, key, key);
      forall k ensures Disjoint(k, key) ==> Separate(k, key) { SeparateKeys(k, key); }
      ok := redis.SetDuration(FullKey(prefix, key + STALE), value, ttl, up);
    }

    method SetLastRefreshNow(fullKey: string)
      modifies this`lastRefresh
      ensures lastRefresh == if Records(c) then old(lastRefresh)[fullKey := redis.now] else old(lastRefresh)
    {
      if c.cooldown <= 0 && c.dedup <= 0 {
        return;
      }
      lastRefresh := lastRefresh[fullKey := redis.now];
    }

    method ShouldRefreshNow(key: Key) returns (b: bool)
      ensures b == Cooled(c, ViewAlone(SlotOf(key), redis.now))
    {
      var fullKey := FullKey(prefix, key);
      if c.cooldown <= 0 || fullKey !in lastRefresh {
        return true;
      }
      b := redis.now - lastRefresh[fullKey] >= c.cooldown;
    }

    lemma Idle(key: Key)
      ensures SlotOf(key).holder.None? <==> !locks.Busy(FullKey(prefix, key))
    {
    }

    // -------------------------------------------------------------------------------------------
    // The key lock
    // -------------------------------------------------------------------------------------------

    /** Lock: either the caller has the key lock now, or it waits for the present holder. */
    method Acquire(key: Key) returns (ch: Channel, waits: bool)
      requires Valid()
      modifies locks, locks.locks.Values
      ensures Valid() && fresh(locks.locks.Values - old(locks.locks.Values))
      ensures FullKey(prefix, key) in locks.locks && locks.locks[FullKey(prefix, key)] == ch && ch.full
      ensures waits <==> old(SlotOf(key)).holder.Some?
      ensures SlotOf(key) == if waits then old(SlotOf(key)) else old(SlotOf(key)).(holder := Some(0))
      ensures forall k | Disjoint(k, key) :: SlotOf(k) == old(SlotOf(k))
    {
      forall k ensures Disjoint(k, key) ==> Separate(k, key) { SeparateKeys(k, key); }
      ch, waits := locks.Lock(FullKey(prefix, key));
    }

    method Leave(ch: Channel, ghost key: Key)
      requires Valid() && ch.full
      requires FullKey(prefix, key) in locks.locks && locks.locks[FullKey(prefix, key)] == ch
      modifies ch
      ensures Valid() && !locks.Busy(FullKey(prefix, key))
      ensures SlotOf(key) == old(SlotOf(key)).(holder := None)
      ensures forall k | Disjoint(k, key) :: SlotOf(k) == old(SlotOf(k))
    {
      forall k ensures Disjoint(k, key) ==> Separate(k, key) { SeparateKeys(k, key); }
      locks.Unlock(ch, FullKey(prefix, key));
    }

    // -------------------------------------------------------------------------------------------
    // Miss fill strategies
    // -------------------------------------------------------------------------------------------

    /** The next step of an undisturbed job. */
    lemma Next(key: Key, job: Job, pc: PC, o: Oracle)
      requires Shape(c, job, pc) && CanAlone(c, job, pc, SlotOf(key), redis.now, o)
      ensures var (pc', cmd) := SoloAct(c, job, pc, SlotOf(key), redis.now, o);
              Shape(c, job, pc') &&
              Rest(key, job, pc, o)
                == Solo(c, key, job, pc', Effect(SlotOf(key), redis.now, 0, cmd), redis.now, o,
                        Queued(tasks, key, SlotOf(key), cmd))
    {
      SoloStep(c, key, job, pc, SlotOf(key), redis.now, o, tasks);
    }

    /** A fill policy has brought the undisturbed call described by `was` to its end, or (None) to the wait
        for a lock that somebody holds. */
    ghost predicate Reaches(key: Key, r: Request, was: Alone, out: Option<Outcome>, o: Oracle)
      reads this, redis, locks, locks.locks.Values
    {
      match out
      case None => was == Alone(SlotOf(key), None, tasks)
      case Some(x) => Shape(c, Call(r), Finish(r, x)) && was == Rest(key, Call(r), Finish(r, x), o)
    }

    /** The lifetimes a job may carry: resolved ones. */
    predicate Resolved(ttl: int) {
      ttl > 0 || defaults.ttl <= 0
    }

    /** The Set that fills or refreshes a key. */
    method FillLocked(key: Key, ghost job: Job, value: Value, ttl: int, o: Oracle) returns (ok: bool)
      requires Valid() && Shape(c, job, Put(value)) && ttl == Ttl(job) && Resolved(ttl)
      modifies this`lastRefresh, redis`data
      ensures Valid() && Shape(c, job, AfterSet(job, value, ok))
      ensures old(Rest(key, job, Put(value), o)) == Rest(key, job, AfterSet(job, value, ok), o)
      ensures forall k | Disjoint(k, key) :: SlotOf(k) == old(SlotOf(k))
    {
      hide Solo;
      hide SlotOf;
      hide Shape;
      SetChain(c, key, job, SlotOf(key), value, redis.now, o, tasks);
      ok := Set(key, value, ttl, SetKey !in o.down);
    }

    /** missSyncWriteThenReturn, entered from the call itself or, after the helper's signal, from
        missCooperativeRefresh */
    method MissSyncWriteThenReturn(key: Key, r: Request, ghost pc: PC, o: Oracle) returns (out: Option<Outcome>)
      requires Valid() && (pc.LockWait? || pc.CoopWait?) && Shape(c, Call(r), pc) && Resolved(r.ttl)
      requires pc.CoopWait? ==> !locks.Busy(FullKey(prefix, key))
      modifies this`lastRefresh, redis`data, locks, locks.locks.Values
      ensures Valid() && fresh(locks.locks.Values - old(locks.locks.Values))
      ensures Reaches(key, r, old(Rest(key, Call(r), pc, o)), out, o)
      ensures out.None? <==> old(SlotOf(key)).holder.Some?
      ensures forall k | Disjoint(k, key) :: SlotOf(k) == old(SlotOf(k))
    {
      hide Solo;
      hide Local;
      hide Shape;
      Idle(key);
      hide SlotOf;
      ghost var before := SlotOf(key);
      var ch, waits := Acquire(key);
      if waits {
        SoloBlocked(c, key, Call(r), before, redis.now, o, tasks);
        return None;
      }
      LockedChain(c, key, r, pc, before, redis.now, o, tasks);
      var done := FillUnderLock(key, r, before.main, o);
      ReleaseChain(c, key, r, done, SlotOf(key), redis.now, o, tasks);
      Leave(ch, key);
      out := Some(done);
    }

    /** The part of missSyncWriteThenReturn between Lock and unlock. */
    method FillUnderLock(key: Key, r: Request, ghost main: Option<Entry>, o: Oracle) returns (done: Outcome)
      requires Valid() && Resolved(r.ttl) && SlotOf(key).main == main
      requires Shape(c, Call(r), SecondLook(main, o))
      modifies this`lastRefresh, redis`data
      ensures Valid() && Shape(c, Call(r), Unlock(done))
      ensures old(Rest(key, Call(r), SecondLook(main, o), o)) == Rest(key, Call(r), Unlock(done), o)
      ensures forall k | Disjoint(k, key) :: SlotOf(k) == old(SlotOf(k))
    {
      hide Solo;
      hide Local;
      hide Shape;
      hide SlotOf;
      var f := Get(key, LockedGet !in o.down);
      match f
      case Broken => done := Failed;
      case Found(v) => done := Cached(v);
      case Absent =>
        if o.gen.None? {
          return Failed;
        }
        var ok := FillLocked(key, Call(r), o.gen.value, r.ttl, o);
        done := if ok then Filled(o.gen.value) else Failed;
    }

    /** Where the protocol's caller is after its second look and its generator. */
    ghost function SecondLook(main: Option<Entry>, o: Oracle): PC
      reads redis
    {
      var seen := Read(main, redis.now);
      if LockedGet in o.down then Unlock(Failed)
      else if seen.Some? then Unlock(Cached(seen.value))
      else if o.gen.None? then Unlock(Failed) else Put(o.gen.value)
    }

    method MissReturnThenAsyncWrite(key: Key, r: Request, o: Oracle) returns (out: Outcome)
      requires Valid() && Shape(c, Call(r), FreeReady) && r.miss.Async?
      modifies this`tasks
      ensures Reaches(key, r, old(Rest(key, Call(r), FreeReady, o)), Some(out), o)
      ensures forall k :: SlotOf(k) == old(SlotOf(k))
    {
      hide Solo;
      FreeChain(c, key, r, SlotOf(key), redis.now, o, tasks);
      if o.gen.None? {
        return Failed;
      }
      tasks := tasks + [Task(key, WriteBack(o.gen.value, r.ttl))];
      out := Generated(o.gen.value);
    }

    method MissStaleWhileRevalidate(key: Key, r: Request, o: Oracle) returns (out: Option<Outcome>)
      requires Valid() && Shape(c, Call(r), StaleGet) && Resolved(r.ttl)
      modifies this, redis`data, locks, locks.locks.Values
      ensures Valid() && fresh(locks.locks.Values - old(locks.locks.Values))
      ensures Reaches(key, r, old(Rest(key, Call(r), StaleGet, o)), out, o)
      ensures forall k | Disjoint(k, key) :: SlotOf(k) == old(SlotOf(k))
    {
      hide Solo;
      hide Local;
      hide Shape;
      ShadowChain(c, key, r, SlotOf(key), redis.now, o, tasks);
      var stale := redis.Get(FullKey(prefix, key + STALE), ShadowGet !in o.down);
      if stale.Found? {
        assert tasks + [] == tasks;
        if !r.noRefresh {
          tasks := tasks + [Task(key, StaleRefresh(r.ttl, r.gen))];
        }
        out := Some(Stale(stale.value));
      } else {
        out := MissSyncWriteThenReturn(key, r, LockWait, o);
      }
    }

    /** missCooperativeRefresh.  The helper goroutine comes and goes if the lock is free; otherwise it is
        left waiting for it, the time-out passes, and the caller generates without the lock. */
    method MissCooperativeRefresh(key: Key, r: Request, o: Oracle) returns (out: Option<Outcome>)
      requires Valid() && Shape(c, Call(r), Dispatch) && r.miss.Cooperative? && Resolved(r.ttl)
      modifies this, redis`data, locks, locks.locks.Values
      ensures Valid() && fresh(locks.locks.Values - old(locks.locks.Values))
      ensures Reaches(key, r, old(Rest(key, Call(r), Dispatch, o)), out, o)
      ensures forall k | Disjoint(k, key) :: SlotOf(k) == old(SlotOf(k))
    {
      hide Solo;
      Next(key, Call(r), Dispatch, o);
      Idle(key);
      if locks.Busy(FullKey(prefix, key)) {
        tasks := tasks + [Task(key, Helper)];
        TimeoutChain(c, key, r, CoopWait(Some(0)), SlotOf(key), redis.now, o, tasks);
        FreeChain(c, key, r, SlotOf(key), redis.now, o, tasks);
        out := Some(if o.gen.None? then Failed else Generated(o.gen.value));
      } else {
        out := MissSyncWriteThenReturn(key, r, CoopWait(Some(0)), o);
      }
    }

    /** The switch of GetOrRefresh on the miss-fill policy */
    method FillMiss(key: Key, r: Request, o: Oracle) returns (out: Option<Outcome>)
      requires Valid() && Shape(c, Call(r), Dispatch) && Resolved(r.ttl)
      modifies this, redis`data, locks, locks.locks.Values
      ensures Valid() && fresh(locks.locks.Values - old(locks.locks.Values))
      ensures Reaches(key, r, old(Rest(key, Call(r), Dispatch, o)), out, o)
      ensures forall k | Disjoint(k, key) :: SlotOf(k) == old(SlotOf(k))
    {
      hide Solo;
      if r.miss.Cooperative? {
        out := MissCooperativeRefresh(key, r, o);
        return;
      }
      Next(key, Call(r), Dispatch, o);
      match r.miss
      case Sync => out := MissSyncWriteThenReturn(key, r, LockWait, o);
      case Async =>
        var generated := MissReturnThenAsyncWrite(key, r, o);
        out := Some(generated);
      case StaleOrSync => out := MissStaleWhileRevalidate(key, r, o);
      case FailFast => out := Some(Missed);
    }

    // -------------------------------------------------------------------------------------------
    // GetOrRefresh
    // -------------------------------------------------------------------------------------------

    /** Starts a background refresh if the hit policy asks for one. */
    method HandleHitRefresh(key: Key, r: Request, o: Oracle)
      requires Valid()
      modifies this`tasks
      ensures var v := ViewAlone(old(SlotOf(key)), redis.now);
              tasks == if HitLaunches(c, r, v, o) then old(tasks) + [Task(key, Refresh(r.ttl, r.gen))] else old(tasks)
      ensures forall k :: SlotOf(k) == old(SlotOf(k))
    {
      var go := false;
      match r.hit {
        case Ahead(threshold) =>
          var n := redis.TimeToLive(FullKey(prefix, key), AskTtl !in o.down);
          go := n.Some? && n.value > 0 && r.ttl != 0 && n.value as real / r.ttl as real <= threshold;
        case Probabilistic =>
          go := o.draw && FullKey(prefix, key) + CREATED in lastRefresh;
        case OlderThan(age) =>
          var n := redis.TimeToLive(FullKey(prefix, key), AskTtl !in o.down);
          go := age > 0.0 && n.Some? && n.value > 0 && (r.ttl - n.value) as real >= age;
        case NoHit =>
        case OnHit =>
          go := ShouldRefreshNow(key);
      }
      if go {
        tasks := tasks + [Task(key, Refresh(r.ttl, r.gen))];
      }
    }

    /** The options of one call, on top of the handler's. */
    method ResolveCall(gen: Generator, opts: Options) returns (r: Request)
      requires Valid()
      ensures r == Resolve(Go, defaults, opts, Some(gen))
      ensures opts.ttl.Some? && opts.ttl.value > 0 ==> r.ttl == opts.ttl.value
      ensures opts.ttl.None? || opts.ttl.value <= 0 ==> r.ttl == defaults.ttl
      ensures var asked := if opts.miss.Some? then opts.miss.value else defaults.miss;
              r.miss == if asked.UseDefault? then Sync else asked.miss
      ensures match if opts.hit.Some? then opts.hit.value else defaults.hit
              case KindDefault => r.hit.OnHit?
              case KindAhead =>
                r.hit == Ahead(if opts.threshold.Some? && opts.threshold.value > 0.0 then opts.threshold.value
                               else defaults.threshold)
              case KindProbabilistic => r.hit.Probabilistic?
              case KindOlderThan =>
                r.hit == OlderThan(if opts.age.Some? && opts.age.value > 0.0 then opts.age.value else defaults.age)
              case KindNone => r.hit.NoHit?
      ensures r.err == (if opts.err.Some? then opts.err.value else defaults.err)
      ensures r.noRefresh == opts.noRefresh && r.gen == Some(gen)
      ensures Resolved(r.ttl) && Shape(c, Call(r), Look)
    {
      var ttl := GetOr(opts.ttl, 0);
      if ttl <= 0 {
        ttl := defaults.ttl;
      }
      var miss := defaults.miss;
      if opts.miss.Some? {
        miss := opts.miss.value;
      }
      if miss.UseDefault? {
        miss := Use(Sync);
      }
      var threshold, age := GetOr(opts.threshold, 0.0), GetOr(opts.age, 0.0);
      if threshold <= 0.0 {
        threshold := defaults.threshold;
      }
      if age <= 0.0 {
        age := defaults.age;
      }
      var hit: Hit;
      match GetOr(opts.hit, defaults.hit) {
        case KindAhead => hit := Ahead(threshold);
        case KindProbabilistic => hit := Probabilistic;
        case KindOlderThan => hit := OlderThan(age);
        case KindNone => hit := NoHit;
        case KindDefault => hit := OnHit;
      }
      r := Request(ttl, miss.miss, hit, opts.noRefresh, GetOr(opts.err, defaults.err), Some(gen));
    }

    /** What the meaning of undisturbed calls promises for this one. */
    lemma Promised(key: Key, r: Request, o: Oracle)
      requires Valid() && r.gen.Some?
      ensures var was := Rest(key, Call(r), Look, o);
              && (r.err.Surface? ==> was.out != Some(Zero))
              && (r.err.ZeroValue? ==> (was.out == Some(Failed) <==> FirstGet in o.down))
              && (was.out == Some(Missed) <==>
                    r.miss.FailFast? && FirstGet !in o.down && Gone(SlotOf(key).main, redis.now))
              && (r.miss.Sync? && r.ttl > 0 && o.down == {} && o.gen.Some?
                  && SlotOf(key).holder.None? && Gone(SlotOf(key).main, redis.now) ==>
                    was.out == Some(Filled(o.gen.value))
                    && was.slot.main == Some(Entry(o.gen.value, Some(redis.now + r.ttl))))
    {
      hide Solo;
      hide SlotOf;
      AnswerMeans(c, key, r, SlotOf(key), redis.now, o, tasks);
      if r.miss.Sync? && r.ttl > 0 && o.down == {} && o.gen.Some?
         && SlotOf(key).holder.None? && Gone(SlotOf(key).main, redis.now) {
        SyncStores(c, key, r, SlotOf(key), redis.now, o, tasks);
      }
    }

    /** The undisturbed call does what the protocol's thread does from its first look to its return, or
        (None) to the wait for a lock that somebody holds. */
    method GetOrRefresh(key: Key, gen: Generator, opts: Options, o: Oracle) returns (out: Option<Outcome>)
      requires Valid()
      modifies this, redis`data, locks, locks.locks.Values
      ensures Valid() && fresh(locks.locks.Values - old(locks.locks.Values))
      ensures var r := Resolve(Go, defaults, opts, Some(gen));
              Alone(SlotOf(key), out, tasks) == old(Rest(key, Call(r), Look, o))
      ensures (if opts.err.Some? then opts.err.value else defaults.err).Surface? ==> out != Some(Zero)
      ensures (if opts.err.Some? then opts.err.value else defaults.err).ZeroValue? ==>
                (out == Some(Failed) <==> FirstGet in o.down)
      ensures out == Some(Missed) <==>
                (if opts.miss.Some? then opts.miss.value else defaults.miss) == Use(FailFast)
                && FirstGet !in o.down && Gone(old(SlotOf(key)).main, redis.now)
      ensures var ttl := if opts.ttl.Some? && opts.ttl.value > 0 then opts.ttl.value else defaults.ttl;
              var miss := if opts.miss.Some? then opts.miss.value else defaults.miss;
              (miss == Use(Sync) || miss.UseDefault?) && ttl > 0 && o.down == {} && o.gen.Some?
              && old(SlotOf(key)).holder.None? && Gone(old(SlotOf(key)).main, redis.now) ==>
                out == Some(Filled(o.gen.value)) && SlotOf(key).main == Some(Entry(o.gen.value, Some(redis.now + ttl)))
      ensures forall k | Disjoint(k, key) :: SlotOf(k) == old(SlotOf(k))
    {
      hide Solo;
      hide Local;
      hide SlotOf;
      hide Resolve;
      hide Gone;
      hide Shape;
      var r := ResolveCall(gen, opts);
      Promised(key, r, o);
      out := Serve(key, r, o);
    }

    /** The call with its options resolved. */
    method Serve(key: Key, r: Request, o: Oracle) returns (out: Option<Outcome>)
      requires Valid() && Shape(c, Call(r), Look) && Resolved(r.ttl)
      modifies this, redis`data, locks, locks.locks.Values
      ensures Valid() && fresh(locks.locks.Values - old(locks.locks.Values))
      ensures Alone(SlotOf(key), out, tasks) == old(Rest(key, Call(r), Look, o))
      ensures forall k | Disjoint(k, key) :: SlotOf(k) == old(SlotOf(k))
    {
      hide Solo;
      hide Local;
      hide SlotOf;
      LookChain(c, key, r, SlotOf(key), redis.now, o, tasks);
      var f := Get(key, FirstGet !in o.down);
      match f
      case Broken =>
        SoloDone(c, key, Call(r), Failed, SlotOf(key), redis.now, o, tasks);
        out := Some(Failed);
      case Found(v) =>
        SoloDone(c, key, Call(r), Cached(v), SlotOf(key), redis.now, o, tasks);
        out := Answer(key, r, v, o);
      case Absent =>
        out := AnswerMiss(key, r, o);
    }

    /** A miss: the deduplication check, the fill policy, and the end of the call. */
    method AnswerMiss(key: Key, r: Request, o: Oracle) returns (out: Option<Outcome>)
      requires Valid() && Shape(c, Call(r), Dedup) && Resolved(r.ttl)
      modifies this, redis`data, locks, locks.locks.Values
      ensures Valid() && fresh(locks.locks.Values - old(locks.locks.Values))
      ensures Alone(SlotOf(key), out, tasks) == old(Rest(key, Call(r), Dedup, o))
      ensures forall k | Disjoint(k, key) :: SlotOf(k) == old(SlotOf(k))
    {
      hide Solo;
      hide Local;
      hide SlotOf;
      var again := CheckDeduplicationBypass(key, r, o);
      if again.Some? {
        return Some(Cached(again.value));
      }
      out := FillMiss(key, r, o);
      if out.Some? {
        var answer := Conclude(key, r, out.value, o);
        out := Some(answer);
      }
    }

    /** A hit: refresh in the background if asked to, and answer. */
    method Answer(key: Key, r: Request, value: Value, o: Oracle) returns (out: Option<Outcome>)
      requires Valid() && Shape(c, Call(r), Trigger(value))
      modifies this`tasks
      ensures Alone(SlotOf(key), out, tasks)
                == if r.noRefresh then Alone(old(SlotOf(key)), Some(Cached(value)), old(tasks))
                   else old(Rest(key, Call(r), Trigger(value), o))
      ensures forall k :: SlotOf(k) == old(SlotOf(k))
    {
      hide Solo;
      out := Some(Cached(value));
      if !r.noRefresh {
        HitChain(c, key, r, value, SlotOf(key), redis.now, o, tasks);
        HandleHitRefresh(key, r, o);
        SoloDone(c, key, Call(r), Cached(value), SlotOf(key), redis.now, o, tasks);
      }
    }

    method CheckDeduplicationBypass(key: Key, r: Request, o: Oracle) returns (again: Option<Value>)
      requires Valid() && Shape(c, Call(r), Dedup)
      ensures again.Some? ==> Rest(key, Call(r), Dedup, o) == Alone(SlotOf(key), Some(Cached(again.value)), tasks)
      ensures again.None? ==>
                Shape(c, Call(r), Dispatch) && Rest(key, Call(r), Dedup, o) == Rest(key, Call(r), Dispatch, o)
    {
      hide Solo;
      DedupChain(c, key, r, SlotOf(key), redis.now, o, tasks);
      var fullKey := FullKey(prefix, key);
      if c.dedup <= 0 || fullKey !in lastRefresh {
        return None;
      }
      if redis.now - lastRefresh[fullKey] >= Min(c.dedup, r.ttl) {
        return None;
      }
      var f := Get(key, SecondGet !in o.down);
      if f.Found? {
        SoloDone(c, key, Call(r), Cached(f.value), SlotOf(key), redis.now, o, tasks);
        again := Some(f.value);
      } else {
        again := None;
      }
    }

    /** The end of a miss: the "@created" stamp and the error policy. */
    method Conclude(key: Key, r: Request, filled: Outcome, o: Oracle) returns (out: Outcome)
      requires Valid() && Shape(c, Call(r), Finish(r, filled))
      modifies this`lastRefresh
      ensures Valid()
      ensures Alone(SlotOf(key), Some(out), tasks) == old(Rest(key, Call(r), Finish(r, filled), o))
      ensures forall k | Disjoint(k, key) :: SlotOf(k) == old(SlotOf(k))
    {
      hide Solo;
      FinishChain(c, key, r, filled, SlotOf(key), redis.now, o, tasks);
      if Success(filled) && r.hit.Probabilistic? {
        StampCreated(key);
      }
      out := Settle(r, filled);
    }

    method StampCreated(key: Key)
      requires Valid()
      modifies this`lastRefresh
      ensures Valid()
      ensures SlotOf(key) == old(SlotOf(key)).(created := Some(redis.now))
      ensures forall k | Disjoint(k, key) :: SlotOf(k) == old(SlotOf(k))
    {
      forall k ensures Disjoint(k, key) ==> Separate(k, key) { SeparateKeys(k, key); }
      lastRefresh := lastRefresh[FullKey(prefix, key) + CREATED := redis.now];
    }

    // -------------------------------------------------------------------------------------------
    // Background workers
    // -------------------------------------------------------------------------------------------

    /** TryLock on the key's channel */
    method TryAcquire(key: Key) returns (ch: Channel, ok: bool)
      requires Valid()
      modifies locks, locks.locks.Values
      ensures Valid() && fresh(locks.locks.Values - old(locks.locks.Values))
      ensures FullKey(prefix, key) in locks.locks && locks.locks[FullKey(prefix, key)] == ch && ch.full
      ensures ok <==> old(SlotOf(key)).holder.None?
      ensures SlotOf(key) == if ok then old(SlotOf(key)).(holder := Some(0)) else old(SlotOf(key))
      ensures forall k | Disjoint(k, key) :: SlotOf(k) == old(SlotOf(k))
    {
      forall k ensures Disjoint(k, key) ==> Separate(k, key) { SeparateKeys(k, key); }
      ch, ok := locks.TryLock(FullKey(prefix, key));
    }

    method SpawnBackgroundMissWrite(key: Key, ttl: int, value: Value, o: Oracle)
      requires Valid() && Resolved(ttl)
      modifies this`lastRefresh, redis`data, locks, locks.locks.Values
      ensures Valid() && fresh(locks.locks.Values - old(locks.locks.Values))
      ensures Alone(SlotOf(key), Some(Quiet), tasks) == old(Rest(key, WriteBack(value, ttl), TryLock, o))
      ensures forall k | Disjoint(k, key) :: SlotOf(k) == old(SlotOf(k))
    {
      hide Solo;
      hide Local;
      hide SlotOf;
      ghost var job := WriteBack(value, ttl);
      ghost var before := SlotOf(key);
      var ch, ok := TryAcquire(key);
      if !ok {
        BusyChain(c, key, job, before, redis.now, o, tasks);
        return;
      }
      WriteBackChain(c, key, value, ttl, before, redis.now, o, tasks);
      var present := Present(key, o);
      if present == Some(false) {
        var _ := FillLocked(key, job, value, ttl, o);
      }
      WorkerReleases(c, key, job, SlotOf(key), redis.now, o, tasks);
      Leave(ch, key);
    }

    method Present(key: Key, o: Oracle) returns (b: Option<bool>)
      ensures b == if LockedGet in o.down then None else Some(Read(SlotOf(key).main, redis.now).Some?)
    {
      b := redis.Exists(FullKey(prefix, key), LockedGet !in o.down);
    }

    method SpawnBackgroundRefresh(key: Key, ttl: int, gen: Generator, o: Oracle)
      requires Valid() && Resolved(ttl)
      modifies this`lastRefresh, redis`data, locks, locks.locks.Values
      ensures Valid() && fresh(locks.locks.Values - old(locks.locks.Values))
      ensures Alone(SlotOf(key), Some(Quiet), tasks) == old(Rest(key, Refresh(ttl, Some(gen)), TryLock, o))
      ensures forall k | Disjoint(k, key) :: SlotOf(k) == old(SlotOf(k))
    {
      hide Solo;
      hide Local;
      hide SlotOf;
      ghost var job := Refresh(ttl, Some(gen));
      ghost var before := SlotOf(key);
      var ch, ok := TryAcquire(key);
      if !ok {
        BusyChain(c, key, job, before, redis.now, o, tasks);
        return;
      }
      RefreshChain(c, key, job, before, redis.now, o, tasks);
      var cooled := ShouldRefreshNow(key);
      if cooled && o.gen.Some? {
        var _ := FillLocked(key, job, o.gen.value, ttl, o);
      }
      WorkerReleases(c, key, job, SlotOf(key), redis.now, o, tasks);
      Leave(ch, key);
    }

    /** spawnStaleRefresh: no cooldown test, and both keys are written, the shadow also after a failing
        SET of the main key. */
    method SpawnStaleRefresh(key: Key, ttl: int, gen: Generator, o: Oracle)
      requires Valid() && Resolved(ttl)
      modifies this`lastRefresh, redis`data, locks, locks.locks.Values
      ensures Valid() && fresh(locks.locks.Values - old(locks.locks.Values))
      ensures Alone(SlotOf(key), Some(Quiet), tasks) == old(Rest(key, StaleRefresh(ttl, Some(gen)), TryLock, o))
      ensures forall k | Disjoint(k, key) :: SlotOf(k) == old(SlotOf(k))
    {
      hide Solo;
      hide Local;
      hide SlotOf;
      ghost var job := StaleRefresh(ttl, Some(gen));
      ghost var before := SlotOf(key);
      var ch, ok := TryAcquire(key);
      if !ok {
        BusyChain(c, key, job, before, redis.now, o, tasks);
        return;
      }
      RefreshChain(c, key, job, before, redis.now, o, tasks);
      if o.gen.Some? {
        WriteBoth(key, job, o.gen.value, ttl, o);
      }
      WorkerReleases(c, key, job, SlotOf(key), redis.now, o, tasks);
      Leave(ch, key);
    }

    /** The two writes of the stale rewrite. */
    method WriteBoth(key: Key, ghost job: Job, value: Value, ttl: int, o: Oracle)
      requires Valid() && job.StaleRefresh? && Shape(c, job, Put(value)) && ttl == Ttl(job) && Resolved(ttl)
      modifies this`lastRefresh, redis`data
      ensures Valid() && Shape(c, job, Unlock(Quiet))
      ensures old(Rest(key, job, Put(value), o)) == Rest(key, job, Unlock(Quiet), o)
      ensures forall k | Disjoint(k, key) :: SlotOf(k) == old(SlotOf(k))
    {
      hide Solo;
      hide Local;
      hide SlotOf;
      hide Shape;
      var _ := FillLocked(key, job, value, ttl, o);
      ShadowStep(key, job, value, o);
      var _ := SetShadow(key, value, c.staleTtl, SetStaleKey !in o.down);
    }

    lemma ShadowStep(key: Key, job: Job, x: Value, o: Oracle)
      requires job.StaleRefresh? && Shape(c, job, PutShadow(x))
      ensures Shape(c, job, Unlock(Quiet))
      ensures var slot := if SetStaleKey in o.down then SlotOf(key)
                          else SlotOf(key).(shadow := Some(Fresh(x, redis.now, c.staleTtl)));
              Rest(key, job, PutShadow(x), o) == Solo(c, key, job, Unlock(Quiet), slot, redis.now, o, tasks)
    {
      hide Solo;
      SoloStep(c, key, job, PutShadow(x), SlotOf(key), redis.now, o, tasks);
    }
  }
}
