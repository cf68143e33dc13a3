/** How handler defaults and per-call options are resolved into a request. */
module Policies {
  import opened Vocabulary

  /** A miss policy as configured: DEFAULT is a value of the enumeration. */
  datatype MissSetting = UseDefault | Use(miss: Miss)

  datatype HitKind = KindDefault | KindAhead | KindProbabilistic | KindOlderThan | KindNone

  datatype Defaults = Defaults(
    ttl: int, miss: MissSetting, hit: HitKind, err: ErrorPolicy, threshold: real, age: real)

  datatype Options = Options(
    ttl: Option<int>, miss: Option<MissSetting>, hit: Option<HitKind>, err: Option<ErrorPolicy>,
    threshold: Option<real>, age: Option<real>, noRefresh: bool)

  function GetOr<T>(o: Option<T>, default: T): T {
    if o.Some? then o.value else default
  }

  /** Go takes any per-call setting literally and normalises DEFAULT afterwards; Python lets a per-call
      DEFAULT fall through to the handler's setting first. */
  function ResolveMiss(lang: Lang, handler: MissSetting, call: Option<MissSetting>): Miss {
    var chosen :=
      if call.None? || (lang.Python? && call.value.UseDefault?) then handler else call.value;
    if chosen.UseDefault? then Sync else chosen.miss
  }

  /** Go uses the default in place of anything not positive, Python only in place of an absent option. */
  function ResolveInt(lang: Lang, handler: int, call: Option<int>): int {
    if call.None? || (lang.Go? && call.value <= 0) then handler else call.value
  }

  function ResolveReal(lang: Lang, handler: real, call: Option<real>): real {
    if call.None? || (lang.Go? && call.value <= 0.0) then handler else call.value
  }

  function ResolveHit(lang: Lang, d: Defaults, o: Options): Hit {
    match GetOr(o.hit, d.hit)
    case KindDefault => OnHit
    case KindAhead => Ahead(ResolveReal(lang, d.threshold, o.threshold))
    case KindProbabilistic => Probabilistic
    case KindOlderThan => OlderThan(ResolveReal(lang, d.age, o.age))
    case KindNone => NoHit
  }

  function Resolve(lang: Lang, d: Defaults, o: Options, gen: Option<Generator>): Request {
    Request(ResolveInt(lang, d.ttl, o.ttl), ResolveMiss(lang, d.miss, o.miss), ResolveHit(lang, d, o),
            o.noRefresh, GetOr(o.err, d.err), gen)
  }

  /** The two handlers disagree on a call exactly when it asks for DEFAULT explicitly on a handler whose
      own setting is neither DEFAULT nor SYNC. */
  lemma DefaultDiffers(handler: MissSetting, call: Option<MissSetting>)
    ensures ResolveMiss(Go, handler, call) != ResolveMiss(Python, handler, call)
            <==> call == Some(UseDefault) && handler != UseDefault && handler != Use(Sync)
  {
  }
}
