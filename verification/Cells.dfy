/** Runs over the real store: one flat Redis map under the handler's prefix.  The step machine gives every
    user key its own main and shadow entry; here those entries are cells of one map, and keeping them apart
    is a theorem about the key strings. */
module Cells {
  import opened Vocabulary
  import opened Protocol
  import opened Locking
  import opened Keys
  import opened RedisStore
  import Reads

  type Flat = map<string, Entry>

  /** The store after one effect of a thread of k. */
  function AfterCmd(prefix: string, k: Key, cmd: Cmd, flat: Flat): Flat {
    match cmd
    case SetMain(e) => flat[FullKey(prefix, k) := e]
    case SetShadow(e) => flat[ShadowKey(prefix, k) := e]
    case DelBoth => flat - {FullKey(prefix, k), ShadowKey(prefix, k)}
    case _ => flat
  }

  /** The store after one event; eviction and other processes name the Redis keys, too. */
  function AfterEvent(c: Config, prefix: string, s: State, e: Event, flat: Flat): Flat
    requires Enabled(c, s, e)
  {
    match e
    case Step(t, ch) => AfterCmd(prefix, s.threads[t].key, Act(c, s, t, ch).1, flat)
    case Evict(k) => flat - {FullKey(prefix, k)}
    case EvictShadow(k) => flat - {ShadowKey(prefix, k)}
    case Foreign(k, v, ttl) => flat[FullKey(prefix, k) := Fresh(v, s.now, ttl)]
    case ForeignShadow(k, v, ttl) => flat[ShadowKey(prefix, k) := Fresh(v, s.now, ttl)]
    case _ => flat
  }

  function AfterRun(c: Config, prefix: string, r: Run, flat: Flat): Flat
    requires IsRun(c, r)
  {
    match r
    case Start(_) => flat
    case Then(p, e, _) => AfterEvent(c, prefix, Last(p), e, AfterRun(c, prefix, p, flat))
  }

  // ---------------------------------------------------------------------------------------------
  // Which cells an effect can change
  // ---------------------------------------------------------------------------------------------

  /** b's two cells hold the same in both stores. */
  predicate SameCells(prefix: string, b: Key, flat: Flat, flat': Flat) {
    && Find(flat', FullKey(prefix, b)) == Find(flat, FullKey(prefix, b))
    && Find(flat', ShadowKey(prefix, b)) == Find(flat, ShadowKey(prefix, b))
  }

  /** No effect of a thread of a ever changes a cell of b. */
  ghost predicate Isolated(prefix: string, a: Key, b: Key) {
    forall cmd, flat :: SameCells(prefix, b, flat, AfterCmd(prefix, a, cmd, flat))
  }

  lemma OwnCellsOnly(prefix: string, k: Key, cmd: Cmd, flat: Flat, cell: string)
    requires cell != FullKey(prefix, k) && cell != ShadowKey(prefix, k)
    ensures Find(AfterCmd(prefix, k, cmd, flat), cell) == Find(flat, cell)
  {
  }

  /** Key separation, exactly: two different user keys are isolated from each other if and only if neither
      is the other with ":stale" appended. */
  lemma ApartExactly(prefix: string, a: Key, b: Key)
    requires a != b
    ensures Isolated(prefix, a, b) && Isolated(prefix, b, a) <==> Apart(a, b)
  {
    Collisions(prefix, a, b);
    Collisions(prefix, b, a);
    var e := Entry("", None);
    if a == b + STALE {
      assert !SameCells(prefix, b, map[], AfterCmd(prefix, a, SetMain(e), map[]));
    }
    if b == a + STALE {
      assert !SameCells(prefix, a, map[], AfterCmd(prefix, b, SetMain(e), map[]));
    }
  }

  // ---------------------------------------------------------------------------------------------
  // The flat store mirrors the slots
  // ---------------------------------------------------------------------------------------------

  predicate AllApart(keys: set<Key>) {
    forall a, b | a in keys && b in keys && a != b :: Apart(a, b)
  }

  /** The slot of k is what its two cells hold. */
  predicate Mirrors(prefix: string, k: Key, s: State, flat: Flat) {
    && At(s, k).main == Find(flat, FullKey(prefix, k))
    && At(s, k).shadow == Find(flat, ShadowKey(prefix, k))
  }

  predicate Names(e: Event, keys: set<Key>) {
    match e
    case Step(_, _) => true
    case Tick(_) => true
    case Begin(k, _) => k in keys
    case Evict(k) => k in keys
    case EvictShadow(k) => k in keys
    case Foreign(k, _, _) => k in keys
    case ForeignShadow(k, _, _) => k in keys
  }

  /** The run uses no other keys. */
  predicate Uses(r: Run, keys: set<Key>) {
    r.Then? ==> Uses(r.prev, keys) && Names(r.event, keys)
  }

  lemma {:induction false} ThreadsUse(c: Config, r: Run, keys: set<Key>)
    requires IsRun(c, r) && Uses(r, keys)
    ensures forall t | 0 <= t < |Last(r).threads| :: Last(r).threads[t].key in keys
  {
    if r.Then? {
      ThreadsUse(c, r.prev, keys);
      match r.event {
        case Step(t, ch) =>
          var (pc', cmd) := Act(c, Last(r.prev), t, ch);
          MoveFrame(Last(r.prev), t, pc', cmd);
        case _ =>
      }
    }
  }

  lemma EventMirrors(c: Config, prefix: string, keys: set<Key>, s: State, e: Event, flat: Flat, k: Key)
    requires Enabled(c, s, e) && AllApart(keys) && Names(e, keys) && k in keys && Mirrors(prefix, k, s, flat)
    requires e.Step? ==> s.threads[e.tid].key in keys
    ensures Mirrors(prefix, k, Apply(c, s, e), AfterEvent(c, prefix, s, e, flat))
  {
    hide Local;
    Collisions(prefix, k, k);
    match e
    case Step(t, ch) =>
      var (pc', cmd) := Act(c, s, t, ch);
      MoveFrame(s, t, pc', cmd);
      if s.threads[t].key != k { ApartExactly(prefix, s.threads[t].key, k); }
    case Tick(_) =>
    case Begin(_, _) =>
    case _ =>
      Collisions(prefix, e.key, k);
      Collisions(prefix, k, e.key);
  }

  /** The store of a run.  For keys none of which is another one with ":stale" appended, under any prefix,
      the flat Redis map holds throughout the run what the step machine says about each key. */
  lemma {:induction false} RunMirrors(c: Config, prefix: string, keys: set<Key>, r: Run, flat: Flat)
    requires IsRun(c, r) && Uses(r, keys) && AllApart(keys)
    requires forall k | k in keys :: Mirrors(prefix, k, First(r), flat)
    ensures forall k | k in keys :: Mirrors(prefix, k, Last(r), AfterRun(c, prefix, r, flat))
  {
    if r.Then? {
      RunMirrors(c, prefix, keys, r.prev, flat);
      ThreadsUse(c, r.prev, keys);
      forall k | k in keys ensures Mirrors(prefix, k, Last(r), AfterRun(c, prefix, r, flat)) {
        EventMirrors(c, prefix, keys, Last(r.prev), r.event, AfterRun(c, prefix, r.prev, flat), k);
      }
    }
  }

  /** Provenance in Redis.  Whatever the run leaves in one of the two Redis keys of k was there for k
      before, was set for k, or was produced by a generator call for k. */
  lemma CellProvenance(c: Config, prefix: string, keys: set<Key>, r: Run, flat: Flat, k: Key, cell: string)
    requires IsRun(c, r) && Uses(r, keys) && AllApart(keys) && k in keys
    requires forall q | q in keys :: Mirrors(prefix, q, First(r), flat)
    requires cell == FullKey(prefix, k) || cell == ShadowKey(prefix, k)
    requires cell in AfterRun(c, prefix, r, flat)
    ensures Reads.Origin(r, k, AfterRun(c, prefix, r, flat)[cell].value)
  {
    RunMirrors(c, prefix, keys, r, flat);
    Reads.Provenance(c, r, k, AfterRun(c, prefix, r, flat)[cell].value);
  }

  /** Everything else in Redis is left alone. */
  lemma {:induction false} OthersUntouched(c: Config, prefix: string, keys: set<Key>, r: Run, flat: Flat, cell: string)
    requires IsRun(c, r) && Uses(r, keys)
    requires forall k | k in keys :: cell != FullKey(prefix, k) && cell != ShadowKey(prefix, k)
    ensures Find(AfterRun(c, prefix, r, flat), cell) == Find(flat, cell)
  {
    if r.Then? {
      OthersUntouched(c, prefix, keys, r.prev, flat, cell);
      ThreadsUse(c, r.prev, keys);
      if r.event.Step? {
        var s, e, before := Last(r.prev), r.event, AfterRun(c, prefix, r.prev, flat);
        OwnCellsOnly(prefix, s.threads[e.tid].key, Act(c, s, e.tid, e.choice).1, before, cell);
      }
    }
  }

  /** Two handlers on one Redis server: a run of the one with prefix p changes no key of the one with
      prefix q, if the prefixes are different, not empty and free of colons. */
  lemma HandlersUndisturbed(c: Config, p: string, q: string, keys: set<Key>, r: Run, flat: Flat, k: Key)
    requires IsRun(c, r) && Uses(r, keys)
    requires p != q && p != "" && q != "" && ':' !in p && ':' !in q
    ensures SameCells(q, k, flat, AfterRun(c, p, r, flat))
  {
    forall a | a in keys
      ensures FullKey(q, k) != FullKey(p, a) && FullKey(q, k) != ShadowKey(p, a)
      ensures ShadowKey(q, k) != FullKey(p, a) && ShadowKey(q, k) != ShadowKey(p, a)
    {
      PrefixesSeparate(q, k, p, a);
    }
    OthersUntouched(c, p, keys, r, flat, FullKey(q, k));
    OthersUntouched(c, p, keys, r, flat, ShadowKey(q, k));
  }
}
