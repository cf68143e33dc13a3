/** Where a handler keeps a key: full keys, shadow keys, and when two of them collide. */
module Keys {
  import opened Vocabulary

  const STALE := ":stale"

  /** fullKey / _full_key */
  function FullKey(prefix: string, key: Key): string {
    if prefix == "" then key else prefix + ":" + key
  }

  /** The shadow key as Go spells it: the suffix goes to the user key.  Python appends it to the full key. */
  function ShadowKey(prefix: string, key: Key): string {
    FullKey(prefix, key + STALE)
  }

  lemma BothSpellings(prefix: string, key: Key)
    ensures ShadowKey(prefix, key) == FullKey(prefix, key) + STALE
  {
    if prefix != "" {
      assert prefix + ":" + (key + STALE) == (prefix + ":" + key) + STALE;
    }
  }

  /** The key string: a prefix is put in front with a colon, and nothing is lost. */
  lemma Spelled(prefix: string, key: Key)
    ensures prefix == "" ==> FullKey(prefix, key) == key && ShadowKey(prefix, key) == key + ":stale"
    ensures prefix != "" ==>
              && |FullKey(prefix, key)| == |prefix| + 1 + |key|
              && FullKey(prefix, key)[..|prefix|] == prefix
              && FullKey(prefix, key)[|prefix|] == ':'
              && FullKey(prefix, key)[|prefix| + 1..] == key
              && ShadowKey(prefix, key) == FullKey(prefix, key) + ":stale"
  {
    BothSpellings(prefix, key);
  }

  lemma FullKeyInjective(prefix: string, a: Key, b: Key)
    ensures FullKey(prefix, a) == FullKey(prefix, b) <==> a == b
  {
    if prefix != "" && FullKey(prefix, a) == FullKey(prefix, b) {
      assert a == FullKey(prefix, a)[|prefix| + 1..];
      assert b == FullKey(prefix, b)[|prefix| + 1..];
    }
  }

  lemma AppendInjective(a: string, b: string, suffix: string)
    ensures a + suffix == b + suffix <==> a == b
  {
    if a + suffix == b + suffix {
      assert a == (a + suffix)[..|a|];
      assert b == (b + suffix)[..|b|];
    }
  }

  /** The cells of two keys collide exactly when one user key is the other with ":stale" appended:
      with the prefix shared, main keys and shadow keys never collide otherwise. */
  lemma Collisions(prefix: string, a: Key, b: Key)
    ensures FullKey(prefix, a) == FullKey(prefix, b) <==> a == b
    ensures ShadowKey(prefix, a) == ShadowKey(prefix, b) <==> a == b
    ensures FullKey(prefix, a) == ShadowKey(prefix, b) <==> a == b + STALE
  {
    FullKeyInjective(prefix, a, b);
    FullKeyInjective(prefix, a + STALE, b + STALE);
    FullKeyInjective(prefix, a, b + STALE);
    AppendInjective(a, b, STALE);
  }

  /** Two keys that can be used side by side. */
  predicate Apart(a: Key, b: Key) {
    a != b && a != b + STALE && b != a + STALE
  }

  // ---------------------------------------------------------------------------------------------
  // Two handlers
  // ---------------------------------------------------------------------------------------------

  /** What a handler puts in front of every user key. */
  function Front(prefix: string): string {
    if prefix == "" then "" else prefix + ":"
  }

  lemma Fronted(prefix: string, key: Key)
    ensures FullKey(prefix, key) == Front(prefix) + key
  {
  }

  lemma SplitAt(a: string, x: string, b: string, y: string)
    requires |a| <= |b|
    ensures a + x == b + y <==> b[..|a|] == a && x == b[|a|..] + y
  {
    assert b == b[..|a|] + b[|a|..];
    if a + x == b + y {
      assert a == (a + x)[..|a|] == (b + y)[..|a|] == b[..|a|];
      assert x == (a + x)[|a|..] == (b + y)[|a|..] == b[|a|..] + y;
    }
    if b[..|a|] == a && x == b[|a|..] + y {
      assert a + x == a + (b[|a|..] + y) == (a + b[|a|..]) + y;
    }
  }

  /** Two handlers of different prefixes, exactly: their main keys for a and b are the same Redis key if
      and only if the shorter front starts the longer one and the rest of the longer one starts the other
      user key. */
  lemma HandlersCollide(p: string, a: Key, q: string, b: Key)
    requires |Front(p)| <= |Front(q)|
    ensures var shared := |Front(p)|;
            FullKey(p, a) == FullKey(q, b) <==> Front(q)[..shared] == Front(p) && a == Front(q)[shared..] + b
  {
    Fronted(p, a);
    Fronted(q, b);
    SplitAt(Front(p), a, Front(q), b);
  }

  /** Handlers whose prefixes are different, not empty and free of colons share no Redis key at all. */
  lemma PrefixesSeparate(p: string, a: Key, q: string, b: Key)
    requires p != q && p != "" && q != "" && ':' !in p && ':' !in q
    ensures FullKey(p, a) != FullKey(q, b) && ShadowKey(p, a) != ShadowKey(q, b)
    ensures FullKey(p, a) != ShadowKey(q, b) && ShadowKey(p, a) != FullKey(q, b)
  {
    OnePrefix(p, a, q, b);
    OnePrefix(p, a + STALE, q, b + STALE);
    OnePrefix(p, a, q, b + STALE);
    OnePrefix(p, a + STALE, q, b);
  }

  lemma OnePrefix(p: string, a: Key, q: string, b: Key)
    requires p != q && p != "" && q != "" && ':' !in p && ':' !in q
    ensures FullKey(p, a) != FullKey(q, b)
  {
    var x, y := FullKey(p, a), FullKey(q, b);
    Spelled(p, a);
    Spelled(q, b);
    assert x[..|p|] == p && y[..|q|] == q;
    assert forall i | 0 <= i < |p| :: x[i] == p[i];
    assert forall i | 0 <= i < |q| :: y[i] == q[i];
    assert |p| < |q| ==> q[|p|] in q;
    assert |q| < |p| ==> p[|q|] in p;
  }
}
