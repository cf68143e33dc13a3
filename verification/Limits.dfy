/** Where the guarantees stop: direct writes, which take no lock. */
module Limits {
  import opened Vocabulary
  import opened Protocol
  import opened Stampede
  import opened Scenarios
  import Shadow

  /** The steps of a direct `set`, and of a fill whose generator yields. */
  lemma Setting(c: Config, x: Value, v: View)
    requires v.now == 0
    ensures var pc' := if c.lang.Python? && c.staleTtl > 0 then PutShadow(x) else Record(x);
            Goes(c, Assign(x, 10), Put(x), v, Ok, pc', SetMain(Fresh(x, 0, 10)))
    ensures Goes(c, Assign(x, 10), PutShadow(x), v, Ok, Record(x), SetShadow(Fresh(x, 0, 10 + c.staleTtl)))
    ensures Goes(c, CallWith(Sync), Gen, v, Yield(x), Put(x), Nop)
  {
  }

  /** A direct Set between a fill's second look and its SET is overwritten by the fill. */
  lemma FillOverwritesDirectSet(x: Value, y: Value) returns (c: Config, r: Run, e: Event)
    ensures IsRun(c, r) && Enabled(c, Last(r), e) && Fills(c, Last(r), e, "k")
    ensures Read(At(Last(r), "k").main, Last(r).now) == Some(x)
    ensures Read(At(Apply(c, Last(r), e), "k").main, Last(r).now) == Some(y)
  {
    c := Config(Go, 0, 0, 0);
    r := BeforeOverwriting(c, x, y);
    e := Step(0, Ok);
  }

  lemma BeforeOverwriting(c: Config, x: Value, y: Value) returns (r: Run)
    requires c.lang.Go?
    ensures Scene(c, Sync, r, HELD.(main := Some(Fresh(x, 0, 10))),
                  [Acting(CallWith(Sync), Put(y)), Acting(Assign(x, 10), Record(x))])
  {
    hide Goes;
    hide Scene;
    var fill, direct := CallWith(Sync), Assign(x, 10);
    var written := HELD.(main := Some(Fresh(x, 0, 10)));
    r := ToGenerator(c, Sync);
    r := Arrives(c, Sync, r, HELD, [Acting(fill, Gen)] + HelperDone(c, Sync), direct);
    var a := [Acting(fill, Gen), Acting(direct, Put(x))];
    assert [Acting(fill, Gen)] + HelperDone(c, Sync) + [Acting(direct, Put(x))] == a;
    Setting(c, x, Sight(HELD, a, 1));
    r := Steps(c, Sync, r, HELD, a, 1, Ok, Record(x), SetMain(Fresh(x, 0, 10)));
    var b := [Acting(fill, Gen), Acting(direct, Record(x))];
    assert Moved(a, 1, Record(x), SetMain(Fresh(x, 0, 10))) == b;
    Setting(c, y, Sight(written, b, 0));
    r := Steps(c, Sync, r, written, b, 0, Yield(y), Put(y), Nop);
    assert Moved(b, 0, Put(y), Nop) == [Acting(fill, Put(y)), Acting(direct, Record(x))];
  }

  /** Two direct `set` calls can leave a live main entry and a live shadow with different values. */
  lemma DirectSetsSplitTheShadow(x: Value, y: Value) returns (c: Config, r: Run)
    requires x != y
    ensures c.lang.Python? && c.staleTtl > 0 && IsRun(c, r)
    ensures !Shadow.Midway(Last(r), "k") && Live(Last(r), "k") && !Shadow.Covered(c, At(Last(r), "k"))
  {
    c := Config(Python, 0, 0, 60);
    r := SplitShadow(c, x, y);
  }

  lemma SplitShadow(c: Config, x: Value, y: Value) returns (r: Run)
    requires c.lang.Python? && c.staleTtl > 0
    ensures Scene(c, Sync, r,
                  EMPTY_SLOT.(main := Some(Fresh(y, 0, 10)), shadow := Some(Fresh(x, 0, 10 + c.staleTtl))),
                  [Acting(Assign(x, 10), Record(x)), Acting(Assign(y, 10), Record(y))])
  {
    hide Goes;
    hide Scene;
    var a, b, life := Assign(x, 10), Assign(y, 10), 10 + c.staleTtl;
    var s1 := EMPTY_SLOT.(main := Some(Fresh(x, 0, 10)));
    var s2 := EMPTY_SLOT.(main := Some(Fresh(y, 0, 10)));
    var s3 := s2.(shadow := Some(Fresh(y, 0, life)));
    r := Opening(c, Sync, EMPTY_SLOT);
    r := Arrives(c, Sync, r, EMPTY_SLOT, [], a);
    r := Arrives(c, Sync, r, EMPTY_SLOT, [] + [Acting(a, Put(x))], b);
    var t0 := [Acting(a, Put(x)), Acting(b, Put(y))];
    assert [] + [Acting(a, Put(x))] + [Acting(b, Put(y))] == t0;
    Setting(c, x, Sight(EMPTY_SLOT, t0, 0));
    r := Steps(c, Sync, r, EMPTY_SLOT, t0, 0, Ok, PutShadow(x), SetMain(Fresh(x, 0, 10)));
    var t1 := [Acting(a, PutShadow(x)), Acting(b, Put(y))];
    assert Moved(t0, 0, PutShadow(x), SetMain(Fresh(x, 0, 10))) == t1;
    Setting(c, y, Sight(s1, t1, 1));
    r := Steps(c, Sync, r, s1, t1, 1, Ok, PutShadow(y), SetMain(Fresh(y, 0, 10)));
    var t2 := [Acting(a, PutShadow(x)), Acting(b, PutShadow(y))];
    assert Moved(t1, 1, PutShadow(y), SetMain(Fresh(y, 0, 10))) == t2;
    Setting(c, y, Sight(s2, t2, 1));
    r := Steps(c, Sync, r, s2, t2, 1, Ok, Record(y), SetShadow(Fresh(y, 0, life)));
    var t3 := [Acting(a, PutShadow(x)), Acting(b, Record(y))];
    assert Moved(t2, 1, Record(y), SetShadow(Fresh(y, 0, life))) == t3;
    Setting(c, x, Sight(s3, t3, 0));
    r := Steps(c, Sync, r, s3, t3, 0, Ok, Record(x), SetShadow(Fresh(x, 0, life)));
    assert Moved(t3, 0, Record(x), SetShadow(Fresh(x, 0, life))) == [Acting(a, Record(x)), Acting(b, Record(y))];
  }
}
