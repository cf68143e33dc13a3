/** The AHEAD and OLDER_THAN triggers, over exact rationals. */
module Triggers {
  import opened Vocabulary
  import opened Protocol

  lemma PositiveFactor(x: real, y: real, t: real)
    requires t > 0.0
    ensures x <= y <==> x * t <= y * t
    ensures x < y <==> x * t < y * t
  {
    assert y * t - x * t == (y - x) * t;
    if x < y {
      assert (y - x) * t > 0.0;
    } else if y < x {
      assert x * t - y * t == (x - y) * t;
      assert (x - y) * t > 0.0;
    }
  }

  /** The quotient test of AHEAD without the division. */
  lemma Quotient(a: real, t: real, f: real)
    requires t > 0.0
    ensures a / t <= f <==> a <= f * t
    ensures a / t < f <==> a < f * t
  {
    var q := a / t;
    assert q * t == a;
    PositiveFactor(q, f, t);
  }

  /** The duality on the numbers alone. */
  lemma Complement(a: real, t: real, f: real, g: real)
    requires t > 0.0 && g == (1.0 - f) * t
    ensures a / t <= f <==> t - a >= g
    ensures a / t < f <==> t - a > g
    ensures g > 0.0 <==> f < 1.0
  {
    Quotient(a, t, f);
    PositiveFactor(f, 1.0, t);
    assert (1.0 - f) * t == t - f * t;
  }

  /** Duality.  For an entry written with the call's TTL, AHEAD with threshold f fires exactly when
      OLDER_THAN with age (1 - f) * ttl does; Go's OLDER_THAN additionally ignores ages that are not
      positive, that is thresholds of 1 and above. */
  lemma AheadIsOlderThan(lang: Lang, ttl: int, f: real, remaining: int)
    requires ttl > 0
    ensures var age := (1.0 - f) * ttl as real;
            if lang.Python? || f < 1.0
            then AheadFires(lang, ttl, f, remaining) <==> OlderFires(lang, ttl, age, remaining)
            else !OlderFires(lang, ttl, age, remaining)
  {
    Complement(remaining as real, ttl as real, f, (1.0 - f) * ttl as real);
    assert (ttl - remaining) as real == ttl as real - remaining as real;
  }

  /** The remaining lifetime of an entry at two instants. */
  lemma RemainingShrinks(e: Entry, now: Time, later: Time)
    requires now <= later && Alive(Some(e), later) && Remaining(Some(e), now) > 0
    ensures 0 < Remaining(Some(e), later) <= Remaining(Some(e), now)
  {
  }

  /** Persistence.  Once one of the two triggers fires for an entry it keeps firing, as long as the entry
      is neither rewritten nor expired. */
  lemma TriggersPersist(lang: Lang, ttl: int, f: real, age: real, e: Entry, now: Time, later: Time)
    requires ttl > 0 && now <= later && Alive(Some(e), later)
    ensures AheadFires(lang, ttl, f, Remaining(Some(e), now)) ==>
              AheadFires(lang, ttl, f, Remaining(Some(e), later))
    ensures OlderFires(lang, ttl, age, Remaining(Some(e), now)) ==>
              OlderFires(lang, ttl, age, Remaining(Some(e), later))
  {
    if Remaining(Some(e), now) > 0 {
      RemainingShrinks(e, now, later);
      var a, b, t := Remaining(Some(e), later) as real, Remaining(Some(e), now) as real, ttl as real;
      Quotient(a, t, f);
      Quotient(b, t, f);
    }
  }
}
