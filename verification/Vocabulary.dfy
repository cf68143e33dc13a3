/** The values, policies and requests that every part of the model speaks about. */
module Vocabulary {

  datatype Option<+T> = None | Some(value: T)

  /** A user key, before the handler's prefix is put in front of it. */
  type Key = string

  /** A cached value in its encoded (JSON text) form. */
  type Value = string

  /** Clock readings and durations, in ticks of one unspecified granularity. */
  type Time = nat

  /** Threads (callers and background workers) are numbered in order of creation. */
  type Tid = nat

  /** Which of the two handlers runs: helper.go/cache.go or _handler.py. */
  datatype Lang = Go | Python

  /** Generators are opaque; only their identity matters, and who keeps them alive. */
  datatype Generator = PerCall(call: nat) | Registered(handle: int)

  /** Miss-fill policies after the DEFAULT value has been resolved. */
  datatype Miss = Sync | Async | StaleOrSync | FailFast | Cooperative

  /** Hit-refresh policies, each with its resolved parameter. */
  datatype Hit = OnHit | Ahead(threshold: real) | Probabilistic | OlderThan(age: real) | NoHit

  datatype ErrorPolicy = Surface | ZeroValue

  /** One get_or_refresh call with every option resolved. */
  datatype Request = Request(
    ttl: int, miss: Miss, hit: Hit, noRefresh: bool, err: ErrorPolicy, gen: Option<Generator>)

  /** The handler-level numbers the protocol consults. */
  datatype Config = Config(lang: Lang, cooldown: int, dedup: int, staleTtl: int)

  /** What a finished thread hands back. `Filled` and `Generated` are both fresh values: the first was
      written under the key lock, the second was not. `Quiet` ends writers and background workers. */
  datatype Outcome =
    | Cached(value: Value)
    | Stale(value: Value)
    | Filled(value: Value)
    | Generated(value: Value)
    | Zero
    | Missed
    | Failed
    | Quiet

  function Min(a: int, b: int): (m: int)
    ensures m <= a && m <= b && (m == a || m == b)
  {
    if a < b then a else b
  }
}
