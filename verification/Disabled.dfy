/** Which policies refresh in the background although every call has background refresh disabled. */
module Disabled {
  import opened Vocabulary
  import opened Protocol
  import opened Scenarios
  import Ledger

  /** Thread t refreshes k in the background. */
  predicate Refresher(s: State, k: Key, t: Tid) {
    t < |s.threads| && s.threads[t].key == k && (s.threads[t].job.Refresh? || s.threads[t].job.StaleRefresh?)
  }

  /** Some run on which every call of k uses policy p and has background refresh disabled has a worker
      that refreshes k. */
  ghost predicate CanRefresh(c: Config, p: Miss) {
    exists r, k, t :: IsRun(c, r) && OnlyMiss(r, k, p) && OnlyDisabled(r, k) && Refresher(Last(r), k, t)
  }

  lemma {:induction false} DisabledIsRestful(c: Config, r: Run, k: Key, p: Miss)
    requires OnlyMiss(r, k, p) && OnlyDisabled(r, k) && (c.lang.Python? ==> !p.StaleOrSync?)
    ensures Ledger.RestfulCalls(c, r, k)
  {
    if r.Then? { DisabledIsRestful(c, r.prev, k, p); }
  }

  /** A stale answer in Python, given to a call with background refresh disabled. */
  lemma StaleRefreshes(c: Config) returns (r: Run, t: Tid)
    requires c.lang.Python?
    ensures IsRun(c, r) && OnlyMiss(r, "k", StaleOrSync) && OnlyDisabled(r, "k") && Refresher(Last(r), "k", t)
  {
    var slot, job := EMPTY_SLOT.(shadow := Some(Entry("", None))), CallWith(StaleOrSync);
    t := 1;
    r := Opening(c, StaleOrSync, slot);
    r := Enters(c, StaleOrSync, r, slot, []);
    var ths := [Acting(job, StaleGet)];
    assert [] + ths + HelpersOf(c, StaleOrSync) == ths;
    r := Steps(c, StaleOrSync, r, slot, ths, 0, Ok, Done(Stale("")), Spawn(Refresh(10, Some(Registered(1)))));
  }

  /** What disabling background refresh does, exactly.  Whatever the configuration: a key whose calls all
      use policy p with background refresh disabled can get a refresh worker if and only if the handler is
      the Python one and p is STALE_OR_SYNC. */
  lemma DisabledExactly(c: Config, p: Miss)
    ensures CanRefresh(c, p) <==> c.lang.Python? && p.StaleOrSync?
  {
    if c.lang.Python? && p.StaleOrSync? {
      var r, t := StaleRefreshes(c);
    } else if r, k, t :| IsRun(c, r) && OnlyMiss(r, k, p) && OnlyDisabled(r, k) && Refresher(Last(r), k, t) {
      DisabledIsRestful(c, r, k, p);
      Ledger.RestfulRun(c, r, k);
    }
  }
}
