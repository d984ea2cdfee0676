/**
  The seeded value stream. `gen(typ, cfg)` merges the caller's settings into
  the module-level defaults object (which persists across calls and is shared
  by every stream), then yields one sampled value per `next()`, bumping the
  shared seed after each yield. `genOne` is the first value of a new stream.

  fast-check's `fc.sample(arb, { seed, numRuns: 1 })[0]` is the parameter
  `sample`: a function of the arbitrary and the seed only.
*/
module MockDataGen {
  import opened Wrappers
  import opened RandomSeed
  import opened Descriptors
  import opened WithGenerator
  import opened MockDataGenArb

  const MIN_SAFE_INTEGER: int := -9007199254740991
  const MAX_SAFE_INTEGER: int := 9007199254740991

  /** The built-in `Int` generator, run on the PRNG created from prngSeed: a safe integer. */
  function IntBuiltin(draw: IntBetween, prngSeed: int): (n: int)
    ensures MIN_SAFE_INTEGER <= n <= MAX_SAFE_INTEGER
  {
    draw(prngSeed, MIN_SAFE_INTEGER, MAX_SAFE_INTEGER)
  }

  /**
    The time stamp the built-in `Date` generator draws; lo and hi are the
    local-time stamps of 1 February 1970 and 1 February 2100.
  */
  function DateBuiltin(draw: IntBetween, prngSeed: int, lo: int, hi: int): (ms: int)
    ensures lo <= hi ==> lo <= ms <= hi
  {
    draw(prngSeed, lo, hi)
  }

  /** The built-in named-type generators of the defaults object. */
  function DefaultTypeGens(): map<string, SeededGen> {
    map["Int" := IntGen, "Date" := DateGen, "UUID" := UuidGen]
  }

  /** `GenCfg`: both settings optional. */
  datatype GenCfg = GenCfg(seed: Option<int>, namedTypeGens: Option<map<string, SeededGen>>)

  /** The seed after `_.merge(defaults, cfg)`: the caller's, or the current one when it gives none. */
  function MergedSeed(current: int, cfg: Option<GenCfg>): int {
    if cfg.Some? && cfg.value.seed.Some? then cfg.value.seed.value else current
  }

  /** The named generators after `_.merge(defaults, cfg)`: merged key by key, the caller's winning. */
  function MergedGens(current: map<string, SeededGen>, cfg: Option<GenCfg>): map<string, SeededGen> {
    if cfg.Some? && cfg.value.namedTypeGens.Some? then current + cfg.value.namedTypeGens.value else current
  }

  /**
    Merging keeps every name already there and adds the caller's; a name reads
    as the caller's generator if it gives one, else as before. So the built-ins
    stay available unless the caller replaces them.
  */
  lemma MergedGensSpec(current: map<string, SeededGen>, cfg: Option<GenCfg>, name: string)
    ensures current.Keys <= MergedGens(current, cfg).Keys
    ensures cfg.Some? && cfg.value.namedTypeGens.Some? ==>
      MergedGens(current, cfg).Keys == current.Keys + cfg.value.namedTypeGens.value.Keys
    ensures cfg.Some? && cfg.value.namedTypeGens.Some? && name in cfg.value.namedTypeGens.value ==>
      MergedGens(current, cfg)[name] == cfg.value.namedTypeGens.value[name]
    ensures name in current && (cfg.None? || cfg.value.namedTypeGens.None? || name !in cfg.value.namedTypeGens.value) ==>
      MergedGens(current, cfg)[name] == current[name]
  {
  }

  /** The module-level `defaultCfg`: one object, shared by every call and mutated by each merge. */
  class Defaults {
    var seed: int
    var namedTypeGens: map<string, SeededGen>

    constructor ()
      ensures seed == 0 && namedTypeGens == DefaultTypeGens()
    {
      seed := 0;
      namedTypeGens := DefaultTypeGens();
    }

    /** `_.merge(defaultCfg, cfg)`: writes the caller's settings into this object. */
    method Merge(cfg: Option<GenCfg>)
      modifies this
      ensures seed == MergedSeed(old(seed), cfg)
      ensures namedTypeGens == MergedGens(old(namedTypeGens), cfg)
    {
      if cfg.Some? {
        if cfg.value.seed.Some? {
          seed := cfg.value.seed.value;
        }
        if cfg.value.namedTypeGens.Some? {
          namedTypeGens := namedTypeGens + cfg.value.namedTypeGens.value;
        }
      }
    }
  }

  /** `namedArbs`: each named generator, run on a PRNG seeded with a drawn natural number. */
  function NamedArbs(gens: map<string, SeededGen>): Ctx {
    map name | name in gens :: Some(Map(Nat, RunSeeded(gens[name])))
  }

  /** The loop filling `namedArbs` from `Object.entries(namedTypeGens)`. */
  method BuildNamedArbs(gens: map<string, SeededGen>) returns (namedArbs: Ctx)
    ensures namedArbs == NamedArbs(gens)
  {
    namedArbs := map[];
    var todo := gens.Keys;
    while todo != {}
      invariant todo <= gens.Keys
      invariant namedArbs.Keys == gens.Keys - todo
      invariant forall name :: name in namedArbs ==> namedArbs[name] == Some(Map(Nat, RunSeeded(gens[name])))
      decreases todo
    {
      var name :| name in todo;
      namedArbs := namedArbs[name := Some(Map(Nat, RunSeeded(gens[name])))];
      todo := todo - {name};
    }
  }

  /**
    Through `gen`, a descriptor without an attached generator whose name has a
    named generator is drawn from that generator, whatever its class; in
    particular the engine's own `Int`, `Date` and `UUID` arbitraries are never
    used, since the defaults always name those three.
  */
  lemma NamedGenWins(typ: Type, gens: map<string, SeededGen>, att: Table)
    requires Attached(att, typ).None? && typ.name in gens
    ensures ArbOf(typ, Some(NamedArbs(gens)), att) == Ok(Map(Nat, RunSeeded(gens[typ.name])))
  {
    MergeCtxSpec(DefaultCtx(), Some(NamedArbs(gens)), typ.name);
    NamedWins(typ, MergeCtx(DefaultCtx(), Some(NamedArbs(gens))), att);
  }

  /** `doGenValue(typ, { seed, namedTypeGens })`: the value sampled with seed, or the error thrown. */
  function Draw<V>(typ: Type, seed: int, gens: map<string, SeededGen>, att: Table, sample: (Arbitrary, int) -> V)
    : Result<V, Error>
  {
    match ArbOf(typ, Some(NamedArbs(gens)), att)
    case Ok(a) => Ok(sample(a, seed))
    case Err(e) => Err(e)
  }

  /** `doGenValue`: builds the named arbitraries, then the arbitrary, then takes one sample. */
  method DoGenValue<V>(typ: Type, seed: int, gens: map<string, SeededGen>, att: Table, sample: (Arbitrary, int) -> V)
    returns (r: Result<V, Error>)
    ensures r == Draw(typ, seed, gens, att, sample)
  {
    var namedArbs := BuildNamedArbs(gens);
    var a := Arb(typ, Some(namedArbs), att);
    if a.Err? {
      return Err(a.error);
    }
    r := Ok(sample(a.value, seed));
  }

  /**
    The seed only picks the sample: whether a draw fails, and with which error,
    does not depend on it, and all draws come from one arbitrary.
  */
  lemma DrawSeedOnlyPicks<V>(typ: Type, s1: int, s2: int, gens: map<string, SeededGen>, att: Table, sample: (Arbitrary, int) -> V)
    ensures Draw(typ, s1, gens, att, sample).Ok? <==> Draw(typ, s2, gens, att, sample).Ok?
    ensures Draw(typ, s1, gens, att, sample).Err? ==> Draw(typ, s1, gens, att, sample) == Draw(typ, s2, gens, att, sample)
    ensures Draw(typ, s1, gens, att, sample).Ok? ==>
      exists a :: Draw(typ, s1, gens, att, sample) == Ok(sample(a, s1)) && Draw(typ, s2, gens, att, sample) == Ok(sample(a, s2))
  {
    var r := ArbOf(typ, Some(NamedArbs(gens)), att);
    if r.Ok? {
      assert Draw(typ, s1, gens, att, sample) == Ok(sample(r.value, s1));
    }
  }

  /** fast-check maps a constant by running the function on it, whatever the seed. */
  ghost predicate MapsConstants<V>(sample: (Arbitrary, int) -> V, run: (SeededGen, int) -> V) {
    forall g, p, s :: sample(Map(Constant(Undefined), RunFixed(g, p)), s) == run(g, p)
  }

  /**
    A descriptor with an attached generator gives the same value for every
    seed: the generator always runs on the PRNG created from "0".
  */
  lemma AttachedDrawIgnoresSeed<V>(typ: Type, s1: int, s2: int, gens: map<string, SeededGen>, att: Table,
                                   sample: (Arbitrary, int) -> V, run: (SeededGen, int) -> V)
    requires Attached(att, typ).Some? && MapsConstants(sample, run)
    ensures Draw(typ, s1, gens, att, sample) == Ok(run(Attached(att, typ).value, 0))
    ensures Draw(typ, s1, gens, att, sample) == Draw(typ, s2, gens, att, sample)
  {
    AttachedWins(typ, MergeCtx(DefaultCtx(), Some(NamedArbs(gens))), att);
  }

  /** What one `next()` returned. */
  datatype Step<V> =
    | Yielded(value: V)     // { value, done: false }
    | Threw(error: Error)   // the call threw; the generator is now completed
    | Finished              // { value: undefined, done: true }

  function StepOf<V>(r: Result<V, Error>): Step<V> {
    match r
    case Ok(v) => Yielded(v)
    case Err(e) => Threw(e)
  }

  /** Where the generator body is suspended. */
  datatype Phase = NotStarted | Suspended | Completed

  /** The generator object `gen(typ, cfg)` returns. */
  class Stream<V> {
    const typ: Type
    const cfg: Option<GenCfg>
    const defaults: Defaults
    const registry: Registry
    const sample: (Arbitrary, int) -> V
    var phase: Phase

    /** `gen(typ, cfg)` creates the generator; its body has not run yet. */
    constructor (typ: Type, cfg: Option<GenCfg>, defaults: Defaults, registry: Registry, sample: (Arbitrary, int) -> V)
      ensures this.typ == typ && this.cfg == cfg && this.defaults == defaults
      ensures this.registry == registry && this.sample == sample
      ensures phase == NotStarted
    {
      this.typ := typ;
      this.cfg := cfg;
      this.defaults := defaults;
      this.registry := registry;
      this.sample := sample;
      phase := NotStarted;
    }

    /**
      `next()`: the first call merges cfg into the shared defaults, each later
      call first bumps the shared seed; then one value is drawn with the shared
      seed and named generators. A throw completes the generator.
    */
    method Next() returns (step: Step<V>)
      modifies this, defaults
      ensures old(phase) == Completed ==>
        && step == Finished
        && defaults.seed == old(defaults.seed) && defaults.namedTypeGens == old(defaults.namedTypeGens)
      ensures old(phase) == NotStarted ==>
        && defaults.seed == MergedSeed(old(defaults.seed), cfg)
        && defaults.namedTypeGens == MergedGens(old(defaults.namedTypeGens), cfg)
      ensures old(phase) == Suspended ==>
        defaults.seed == old(defaults.seed) + 1 && defaults.namedTypeGens == old(defaults.namedTypeGens)
      ensures old(phase) != Completed ==>
        step == StepOf(Draw(typ, defaults.seed, defaults.namedTypeGens, registry.table, sample))
      ensures phase == if step.Yielded? then Suspended else Completed
    {
      match phase {
        case Completed =>
          return Finished;
        case NotStarted =>
          defaults.Merge(cfg);
        case Suspended =>
          defaults.seed := defaults.seed + 1;
      }
      var r := DoGenValue(typ, defaults.seed, defaults.namedTypeGens, registry.table, sample);
      step := StepOf(r);
      phase := if r.Ok? then Suspended else Completed;
    }
  }

  /** `gen(typ, cfg)`. */
  method Gen<V>(typ: Type, cfg: Option<GenCfg>, defaults: Defaults, registry: Registry, sample: (Arbitrary, int) -> V)
    returns (s: Stream<V>)
    ensures fresh(s) && s.phase == NotStarted
    ensures s.typ == typ && s.cfg == cfg && s.defaults == defaults && s.registry == registry && s.sample == sample
  {
    s := new Stream(typ, cfg, defaults, registry, sample);
  }

  /**
    `genOne(typ, cfg)`: the first value of a new stream. The seed is merged but
    not bumped, so the value is drawn with the caller's seed when it gives one.
  */
  method GenOne<V>(typ: Type, cfg: Option<GenCfg>, defaults: Defaults, registry: Registry, sample: (Arbitrary, int) -> V)
    returns (r: Result<V, Error>)
    modifies defaults
    ensures defaults.seed == MergedSeed(old(defaults.seed), cfg)
    ensures defaults.namedTypeGens == MergedGens(old(defaults.namedTypeGens), cfg)
    ensures r == Draw(typ, defaults.seed, defaults.namedTypeGens, registry.table, sample)
  {
    var s := Gen(typ, cfg, defaults, registry, sample);
    var step := s.Next();
    r := if step.Yielded? then Ok(step.value) else Err(step.error);
  }

  /**
    The first n values of a new stream: value i is sampled with the merged
    starting seed plus i, all from one arbitrary; a stream whose arbitrary
    cannot be built yields nothing.
  */
  method Take<V>(s: Stream<V>, n: nat) returns (vals: seq<V>)
    requires s.phase == NotStarted
    modifies s, s.defaults
    ensures var start := MergedSeed(old(s.defaults.seed), s.cfg);
            var gens := MergedGens(old(s.defaults.namedTypeGens), s.cfg);
            var a := ArbOf(s.typ, Some(NamedArbs(gens)), s.registry.table);
            && (a.Ok? ==> |vals| == n && forall i :: 0 <= i < n ==> vals[i] == s.sample(a.value, start + i))
            && (a.Ok? && n > 0 ==> s.defaults.seed == start + n - 1)
            && (a.Err? ==> vals == [])
            && s.defaults.namedTypeGens == (if n == 0 then old(s.defaults.namedTypeGens) else gens)
  {
    ghost var seed0, gens0 := s.defaults.seed, s.defaults.namedTypeGens;
    ghost var start := MergedSeed(seed0, s.cfg);
    ghost var gens := MergedGens(gens0, s.cfg);
    ghost var a := ArbOf(s.typ, Some(NamedArbs(gens)), s.registry.table);
    vals := [];
    for i := 0 to n
      invariant i == 0 ==> s.phase == NotStarted && s.defaults.seed == seed0 && s.defaults.namedTypeGens == gens0
      invariant i > 0 ==> s.defaults.namedTypeGens == gens
      invariant a.Ok? ==> |vals| == i && forall j :: 0 <= j < i ==> vals[j] == s.sample(a.value, start + j)
      invariant a.Ok? && i > 0 ==> s.phase == Suspended && s.defaults.seed == start + i - 1
      invariant a.Err? ==> vals == [] && (i > 0 ==> s.phase == Completed)
    {
      var step := s.Next();
      if step.Yielded? {
        vals := vals + [step.value];
      }
    }
  }

  /**
    Two `genOne` calls with the same seed give the same value (or the same
    error): a draw depends only on the descriptor, the seed and the named
    generators, and the first call leaves the named generators as the second
    needs them.
  */
  method GenOneTwice<V>(typ: Type, seed: int, defaults: Defaults, registry: Registry, sample: (Arbitrary, int) -> V)
    returns (v1: Result<V, Error>, v2: Result<V, Error>)
    modifies defaults
    ensures v1 == v2
    ensures defaults.seed == seed
  {
    var cfg := Some(GenCfg(Some(seed), None));
    v1 := GenOne(typ, cfg, defaults, registry, sample);
    v2 := GenOne(typ, cfg, defaults, registry, sample);
  }

  /**
    Streams are not independent: a second `gen(typ)` started after the first
    has yielded eleven values begins at the first one's advanced seed, so its
    first value is the one drawn with seed 10, not seed 0.
  */
  method SharedSeedAcrossStreams<V>(typ: Type, registry: Registry, sample: (Arbitrary, int) -> V)
    returns (first1: Step<V>, first2: Step<V>)
    ensures var a := ArbOf(typ, Some(NamedArbs(DefaultTypeGens())), registry.table);
      && (a.Ok? ==> first1 == Yielded(sample(a.value, 0)) && first2 == Yielded(sample(a.value, 10)))
      && (a.Err? ==> first1 == Threw(a.error) && first2 == Threw(a.error))
  {
    var defaults := new Defaults();
    var g1 := Gen(typ, None, defaults, registry, sample);
    first1 := g1.Next();
    for i := 0 to 10
      invariant g1.phase == (if first1.Yielded? then Suspended else Completed)
      invariant defaults.namedTypeGens == DefaultTypeGens()
      invariant defaults.seed == if first1.Yielded? then i else 0
    {
      var _ := g1.Next();
    }
    var g2 := Gen(typ, None, defaults, registry, sample);
    first2 := g2.Next();
  }
}
