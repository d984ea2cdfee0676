/**
  The generation engine: `doGenArb` walks an io-ts descriptor and builds the
  fast-check arbitrary for it, `arb` first merges the caller's named
  arbitraries over the built-in ones. An arbitrary is modelled as the
  description of what fast-check is asked to build; fast-check's sampling is
  not modelled.

  Resolution order for every descriptor, nested ones included: a generator
  attached with `withGenerator`, then the arbitrary named like the
  descriptor, then the rule for its io-ts class; a class without a rule is an
  error.
*/
module MockDataGenArb {
  import opened Wrappers
  import opened JsObjects
  import opened RandomSeed
  import opened Descriptors
  import opened WithGenerator

  /** The functions the engine passes to `.map`. */
  datatype Mapper =
    | Negate                                   // x => -x
    | ToDate                                   // n => new Date(n)
    | ToUuid                                   // randomUUID
    | RunSeeded(gen: SeededGen)                // seed => gen(r.create(`${seed}`))
    | RunFixed(gen: SeededGen, prngSeed: int)  // () => gen(r.create(`${prngSeed}`))
    | ToDictionary                             // pairs => object, see JsObjects.CollectEntries
    | ShallowMerge                             // parts => object, see JsObjects.MergeObjects

  /** The fast-check arbitraries the engine builds. */
  datatype Arbitrary =
    | Constant(value: Lit)                     // fc.constant
    | Str                                      // fc.string()
    | Nat                                      // fc.nat()
    | Integer                                  // fc.integer()
    | Float                                    // fc.float()
    | Bool                                     // fc.boolean()
    | BigInt                                   // fc.bigInt()
    | Anything                                 // fc.anything()
    | OneOf(choices: seq<Arbitrary>)           // fc.oneof(...)
    | Record(model: Obj<Arbitrary>)            // fc.record(model)
    | Tuple(items: seq<Arbitrary>)             // fc.tuple(...)
    | Array(item: Arbitrary)                   // fc.array(item)
    | Map(source: Arbitrary, f: Mapper)        // source.map(f)
    | Given(id: nat)                           // an arbitrary the caller built

  /** The named arbitraries; `None` is a name mapped to `undefined`. */
  type Ctx = map<string, Option<Arbitrary>>

  /** The errors `doGenArb` throws. */
  datatype Error =
    | NoGenerator(name: string)           // "no generator for type …"
    | NotAnObjectMember(name: string)     // an intersection member without own `props`
    | OverlappingMember(name: string)     // an intersection member reusing an earlier field name

  /** `ctx.namedArbs[name]`, read for truthiness. */
  function Lookup(ctx: Ctx, name: string): Option<Arbitrary> {
    if name in ctx then ctx[name] else None
  }

  /** `fc.oneof(fc.nat(), fc.integer(), fc.float())`, the magnitude of a number. */
  const Num: Arbitrary := OneOf([Nat, Integer, Float])

  /** `defaultCtx()`: the built-in named arbitraries. */
  function DefaultCtx(): Ctx {
    map[
      "Int" := Some(OneOf([Nat, Map(Nat, Negate)])),
      "Date" := Some(Map(Nat, ToDate)),
      "UUID" := Some(Map(Nat, ToUuid))
    ]
  }

  /**
    `_.merge(base, { namedArbs: caller })` on the named arbitraries: a caller
    arbitrary replaces the base one; a caller `undefined` only adds a name the
    base lacks.
  */
  function MergeCtx(base: Ctx, caller: Option<Ctx>): Ctx {
    match caller
    case None => base
    case Some(c) =>
      map k | k in base.Keys + c.Keys :: if k in c && (c[k].Some? || k !in base) then c[k] else base[k]
  }

  /** The merged context holds every name of either side; a name reads as the caller's arbitrary if it gives one, else as the base's. */
  lemma MergeCtxSpec(base: Ctx, caller: Option<Ctx>, name: string)
    ensures MergeCtx(base, caller).Keys == if caller.Some? then base.Keys + caller.value.Keys else base.Keys
    ensures Lookup(MergeCtx(base, caller), name)
         == if caller.Some? && Lookup(caller.value, name).Some? then Lookup(caller.value, name) else Lookup(base, name)
  {
  }

  /** The descriptor has neither an attached generator nor a named arbitrary, so its class rule applies. */
  predicate NoOverride(t: Type, ctx: Ctx, att: Table) {
    Attached(att, t).None? && Lookup(ctx, t.name).None?
  }

  // ---------------------------------------------------------------------
  // The partial rewrite: every field becomes `t.union([v, t.undefined])`.

  /** The fields of a partial struct with each descriptor made optional, in order. */
  function Optionals(ps: seq<(string, Type)>): (r: seq<(string, Type)>)
    ensures |r| == |ps|
    ensures forall i :: 0 <= i < |ps| ==> r[i] == (ps[i].0, Optional(ps[i].1))
  {
    seq(|ps|, i requires 0 <= i < |ps| => (ps[i].0, Optional(ps[i].1)))
  }

  /** `optionalProps`, the props object the partial rewrite assigns field by field. */
  function OptionalProps(ps: seq<(string, Type)>): Obj<Type> {
    FromEntries(Optionals(ps))
  }

  /**
    The rewritten struct has the partial's field names, each once, and a field
    holds the optional form of the descriptor declared last for it.
  */
  lemma OptionalPropsSpec(ps: seq<(string, Type)>, k: string)
    ensures KeysOf(OptionalProps(ps)) == KeysOf(ps)
    ensures UniqueKeys(OptionalProps(ps))
    ensures forall i :: IsLastWrite(ps, i, k) ==> Get(OptionalProps(ps), k) == Some(Optional(ps[i].1))
  {
    var w := Optionals(ps);
    FromEntriesSpec(w, k);
    assert KeysOf(w) == KeysOf(ps) by {
      assert forall i :: 0 <= i < |ps| ==> w[i].0 == ps[i].0;
    }
    forall i | IsLastWrite(ps, i, k) ensures Get(OptionalProps(ps), k) == Some(Optional(ps[i].1)) {
      assert IsLastWrite(w, i, k);
    }
  }

  /** `for (const [k, v] of Object.entries(props)) optionalProps[k] = t.union([v, t.undefined])`. */
  method RewritePartial(ps: seq<(string, Type)>) returns (optionalProps: Obj<Type>)
    ensures optionalProps == OptionalProps(ps)
  {
    optionalProps := [];
    ghost var w := Optionals(ps);
    for i := 0 to |ps|
      invariant optionalProps == Assign([], w[..i])
    {
      assert w[..i + 1][..i] == w[..i];
      optionalProps := Put(optionalProps, ps[i].0, Optional(ps[i].1));
    }
    assert w[..|ps|] == w;
  }

  lemma SizeOptional(v: Type)
    ensures Size(Optional(v)) == Size(v) + 2
  {
    var two := [v, UndefinedDescriptor];
    assert two[..1] == [v];
    assert [v][..0] == [];
    assert SizeSeq([v]) == Size(v);
    assert SizeSeq(two) == Size(v) + 1;
  }

  lemma {:induction false} SizeOptionals(ps: seq<(string, Type)>)
    ensures SizeProps(Optionals(ps)) == SizeProps(ps) + 2 * |ps|
  {
    if ps != [] {
      var init := ps[..|ps| - 1];
      SizeOptionals(init);
      assert Optionals(ps)[..|ps| - 1] == Optionals(init);
      SizeOptional(ps[|ps| - 1].1);
    }
  }

  /** The rewritten struct is smaller than the partial it replaces. */
  lemma SizePartialRewrite(ps: seq<(string, Type)>)
    ensures Size(Interface(OptionalProps(ps))) < 2 + SizeProps(ps) + 2 * |ps|
  {
    SizeOptionals(ps);
    SizeAssign([], Optionals(ps));
    SizeInterface(OptionalProps(ps));
  }

  // ---------------------------------------------------------------------
  // The engine as functions: what `doGenArb` returns or throws.

  /** `doGenArb(t, ctx)`, with att the generators attached so far. */
  function Built(t: Type, ctx: Ctx, att: Table): Result<Arbitrary, Error>
    decreases Size(t), 1
  {
    match Attached(att, t)
    case Some(g) => Ok(Map(Constant(Undefined), RunFixed(g, 0)))
    case None =>
      match Lookup(ctx, t.name)
      case Some(a) => Ok(a)
      case None => Structural(t, ctx, att)
  }

  /** The class rules of `doGenArb`, for a descriptor with no override. */
  function Structural(t: Type, ctx: Ctx, att: Table): Result<Arbitrary, Error>
    decreases Size(t), 0
  {
    match t.kind
    case StringType => Ok(Str)
    case KeyofType(keys) => Ok(OneOf(seq(|keys|, i requires 0 <= i < |keys| => Constant(LitString(keys[i])))))
    case NumberType => Ok(OneOf([Num, Map(Num, Negate)]))
    case LiteralType(v) => Ok(Constant(v))
    case BooleanType => Ok(Bool)
    case UnionType(ts) =>
      (match BuiltAll(ts, ctx, att)
       case Ok(gs) => Ok(OneOf(gs))
       case Err(e) => Err(e))
    case InterfaceType(ps) =>
      (match BuiltFields(ps, ctx, att)
       case Ok(model) => Ok(Record(model))
       case Err(e) => Err(e))
    case DictionaryType(d, c) =>
      (match Built(d, ctx, att)
       case Err(e) => Err(e)
       case Ok(gd) =>
         match Built(c, ctx, att)
         case Err(e) => Err(e)
         case Ok(gc) => Ok(Map(Array(Tuple([gd, gc])), ToDictionary)))
    case UnknownType => Ok(Anything)
    case TupleType(ts) =>
      (match BuiltAll(ts, ctx, att)
       case Ok(gs) => Ok(Tuple(gs))
       case Err(e) => Err(e))
    case PartialType(ps) =>
      SizePartialRewrite(ps);
      Built(Interface(OptionalProps(ps)), ctx, att)
    case IntersectionType(ts) =>
      (match BuiltMembers(ts, ctx, att)
       case Ok(res) => Ok(Map(Tuple(res.1), ShallowMerge))
       case Err(e) => Err(e))
    case AnyType => Ok(Anything)
    case ReadonlyType(e) => Built(e, ctx, att)
    case ReadonlyArrayType(e) => Built(WritableArray(e), ctx, att)
    case ArrayType(e) =>
      (match Built(e, ctx, att)
       case Ok(g) => Ok(Array(g))
       case Err(err) => Err(err))
    case UndefinedType => Ok(Constant(Undefined))
    case NullType => Ok(Constant(Null))
    case BigIntType => Ok(BigInt)
    case RefinementType => Err(NoGenerator(t.name))
  }

  /** `types.map(t => doGenArb(t, ctx))`: the first error thrown, in order, wins. */
  function BuiltAll(ts: seq<Type>, ctx: Ctx, att: Table): Result<seq<Arbitrary>, Error>
    decreases SizeSeq(ts), 2
  {
    if ts == [] then Ok([])
    else
      SizeSeqBound(ts, |ts| - 1);
      match BuiltAll(ts[..|ts| - 1], ctx, att)
      case Err(e) => Err(e)
      case Ok(gs) =>
        match Built(ts[|ts| - 1], ctx, att)
        case Err(e) => Err(e)
        case Ok(g) => Ok(gs + [g])
  }

  /** The record model of a struct: `recordModel[k] = doGenArb(t, ctx)` for each field in order. */
  function BuiltFields(ps: seq<(string, Type)>, ctx: Ctx, att: Table): Result<Obj<Arbitrary>, Error>
    decreases SizeProps(ps), 2
  {
    if ps == [] then Ok([])
    else
      SizePropsBound(ps, |ps| - 1);
      match BuiltFields(ps[..|ps| - 1], ctx, att)
      case Err(e) => Err(e)
      case Ok(model) =>
        match Built(ps[|ps| - 1].1, ctx, att)
        case Err(e) => Err(e)
        case Ok(g) => Ok(Put(model, ps[|ps| - 1].0, g))
  }

  /** The own field names of a descriptor's `props`; none when it has no `props`. */
  function FieldNames(t: Type): seq<string> {
    if HasProps(t) then PropKeys(t) else []
  }

  /**
    The intersection loop: each member in order is checked to have own
    `props`, checked to share no field name with the members before it, and
    built. Returns the field names seen (`allProps`) and the members'
    arbitraries (`innerArbs`).
  */
  function BuiltMembers(ts: seq<Type>, ctx: Ctx, att: Table): Result<(seq<string>, seq<Arbitrary>), Error>
    decreases SizeSeq(ts), 2
  {
    if ts == [] then Ok(([], []))
    else
      SizeSeqBound(ts, |ts| - 1);
      match BuiltMembers(ts[..|ts| - 1], ctx, att)
      case Err(e) => Err(e)
      case Ok(res) =>
        var m := ts[|ts| - 1];
        if !HasProps(m) then Err(NotAnObjectMember(m.name))
        else if SharesField(m, res.0) then Err(OverlappingMember(m.name))
        else
          match Built(m, ctx, att)
          case Err(e) => Err(e)
          case Ok(g) => Ok((res.0 + PropKeys(m), res.1 + [g]))
  }

  /** `allProps.includes(k)` holds for one of m's own field names k. */
  predicate SharesField(m: Type, allProps: seq<string>)
    requires HasProps(m)
  {
    exists i :: 0 <= i < |PropKeys(m)| && PropKeys(m)[i] in allProps
  }

  /** `arb(typ, cfg)`: the engine run under the built-in names merged with the caller's. */
  function ArbOf(typ: Type, cfg: Option<Ctx>, att: Table): Result<Arbitrary, Error> {
    Built(typ, MergeCtx(DefaultCtx(), cfg), att)
  }

  // ---------------------------------------------------------------------
  // The engine as the source runs it.

  /** `doGenArb(t, ctx)`. */
  method DoGenArb(t: Type, ctx: Ctx, att: Table) returns (r: Result<Arbitrary, Error>)
    ensures r == Built(t, ctx, att)
    decreases Size(t), 1
  {
    var customGenerator := Attached(att, t);
    if customGenerator.Some? {
      return Ok(Map(Constant(Undefined), RunFixed(customGenerator.value, 0)));
    }
    var namedArb := Lookup(ctx, t.name);
    if namedArb.Some? {
      return Ok(namedArb.value);
    }
    assert Built(t, ctx, att) == Structural(t, ctx, att);
    r := DoGenStructural(t, ctx, att);
  }

  /** The class rules of `doGenArb`, tried in the order the source tries them. */
  method DoGenStructural(t: Type, ctx: Ctx, att: Table) returns (r: Result<Arbitrary, Error>)
    ensures r == Structural(t, ctx, att)
    decreases Size(t), 0
  {
    match t.kind {
      case StringType =>
        r := Ok(Str);
      case KeyofType(keys) =>
        r := Ok(OneOf(seq(|keys|, i requires 0 <= i < |keys| => Constant(LitString(keys[i])))));
      case NumberType =>
        var num := OneOf([Nat, Integer, Float]);
        r := Ok(OneOf([num, Map(num, Negate)]));
      case LiteralType(v) =>
        r := Ok(Constant(v));
      case BooleanType =>
        r := Ok(Bool);
      case UnionType(ts) =>
        var gs := DoGenAll(ts, ctx, att);
        r := if gs.Ok? then Ok(OneOf(gs.value)) else Err(gs.error);
      case InterfaceType(ps) =>
        var model := DoGenFields(ps, ctx, att);
        r := if model.Ok? then Ok(Record(model.value)) else Err(model.error);
      case DictionaryType(domain, codomain) =>
        var gd := DoGenArb(domain, ctx, att);
        if gd.Err? {
          return Err(gd.error);
        }
        var gc := DoGenArb(codomain, ctx, att);
        if gc.Err? {
          return Err(gc.error);
        }
        r := Ok(Map(Array(Tuple([gd.value, gc.value])), ToDictionary));
      case UnknownType =>
        r := Ok(Anything);
      case TupleType(ts) =>
        var gs := DoGenAll(ts, ctx, att);
        r := if gs.Ok? then Ok(Tuple(gs.value)) else Err(gs.error);
      case PartialType(ps) =>
        var optionalProps := RewritePartial(ps);
        SizePartialRewrite(ps);
        r := DoGenArb(Interface(optionalProps), ctx, att);
      case IntersectionType(ts) =>
        var res := DoGenMembers(ts, ctx, att);
        r := if res.Ok? then Ok(Map(Tuple(res.value.1), ShallowMerge)) else Err(res.error);
      case AnyType =>
        r := Ok(Anything);
      case ReadonlyType(inner) =>
        r := DoGenArb(inner, ctx, att);
      case ReadonlyArrayType(item) =>
        r := DoGenArb(WritableArray(item), ctx, att);
      case ArrayType(item) =>
        var g := DoGenArb(item, ctx, att);
        r := if g.Ok? then Ok(Array(g.value)) else Err(g.error);
      case UndefinedType =>
        r := Ok(Constant(Undefined));
      case NullType =>
        r := Ok(Constant(Null));
      case BigIntType =>
        r := Ok(BigInt);
      case RefinementType =>
        r := Err(NoGenerator(t.name));
    }
  }

  /** Once a prefix of the descriptors fails, the whole list fails with the same error. */
  lemma {:induction false} BuiltAllStops(ts: seq<Type>, n: int, ctx: Ctx, att: Table)
    requires 0 <= n <= |ts| && BuiltAll(ts[..n], ctx, att).Err?
    ensures BuiltAll(ts, ctx, att) == BuiltAll(ts[..n], ctx, att)
  {
    if n < |ts| {
      var init := ts[..|ts| - 1];
      assert init[..n] == ts[..n];
      BuiltAllStops(init, n, ctx, att);
    } else {
      assert ts[..n] == ts;
    }
  }

  /** `types.map(t => doGenArb(t, ctx))`, stopping at the first throw. */
  method DoGenAll(ts: seq<Type>, ctx: Ctx, att: Table) returns (r: Result<seq<Arbitrary>, Error>)
    ensures r == BuiltAll(ts, ctx, att)
    decreases SizeSeq(ts), 2
  {
    var gs: seq<Arbitrary> := [];
    for i := 0 to |ts|
      invariant BuiltAll(ts[..i], ctx, att) == Ok(gs)
    {
      SizeSeqBound(ts, i);
      assert ts[..i + 1][..i] == ts[..i];
      var g := DoGenArb(ts[i], ctx, att);
      if g.Err? {
        BuiltAllStops(ts, i + 1, ctx, att);
        return Err(g.error);
      }
      gs := gs + [g.value];
    }
    assert ts[..|ts|] == ts;
    return Ok(gs);
  }

  lemma {:induction false} BuiltFieldsStops(ps: seq<(string, Type)>, n: int, ctx: Ctx, att: Table)
    requires 0 <= n <= |ps| && BuiltFields(ps[..n], ctx, att).Err?
    ensures BuiltFields(ps, ctx, att) == BuiltFields(ps[..n], ctx, att)
  {
    if n < |ps| {
      var init := ps[..|ps| - 1];
      assert init[..n] == ps[..n];
      BuiltFieldsStops(init, n, ctx, att);
    } else {
      assert ps[..n] == ps;
    }
  }

  /** One more field: the model so far gains the field's arbitrary, or the field's error is thrown. */
  lemma BuiltFieldsNext(ps: seq<(string, Type)>, i: int, ctx: Ctx, att: Table)
    requires 0 <= i < |ps| && BuiltFields(ps[..i], ctx, att).Ok?
    ensures BuiltFields(ps[..i + 1], ctx, att)
         == match Built(ps[i].1, ctx, att)
            case Ok(g) => Ok(Put(BuiltFields(ps[..i], ctx, att).value, ps[i].0, g))
            case Err(e) => Err(e)
  {
    assert ps[..i + 1][..i] == ps[..i];
  }

  /** The struct loop: `recordModel[k] = doGenArb(t, ctx)` for each field. */
  method DoGenFields(ps: seq<(string, Type)>, ctx: Ctx, att: Table) returns (r: Result<Obj<Arbitrary>, Error>)
    ensures r == BuiltFields(ps, ctx, att)
    decreases SizeProps(ps), 2
  {
    var recordModel: Obj<Arbitrary> := [];
    for i := 0 to |ps|
      invariant BuiltFields(ps[..i], ctx, att) == Ok(recordModel)
    {
      SizePropsBound(ps, i);
      BuiltFieldsNext(ps, i, ctx, att);
      var g := DoGenArb(ps[i].1, ctx, att);
      if g.Err? {
        BuiltFieldsStops(ps, i + 1, ctx, att);
        return Err(g.error);
      }
      recordModel := Put(recordModel, ps[i].0, g.value);
    }
    assert ps[..|ps|] == ps;
    return Ok(recordModel);
  }

  lemma {:induction false} BuiltMembersStops(ts: seq<Type>, n: int, ctx: Ctx, att: Table)
    requires 0 <= n <= |ts| && BuiltMembers(ts[..n], ctx, att).Err?
    ensures BuiltMembers(ts, ctx, att) == BuiltMembers(ts[..n], ctx, att)
  {
    if n < |ts| {
      var init := ts[..|ts| - 1];
      assert init[..n] == ts[..n];
      BuiltMembersStops(init, n, ctx, att);
    } else {
      assert ts[..n] == ts;
    }
  }

  /** The intersection loop, throwing at the first member that fails a check or fails to build. */
  method DoGenMembers(ts: seq<Type>, ctx: Ctx, att: Table) returns (r: Result<(seq<string>, seq<Arbitrary>), Error>)
    ensures r == BuiltMembers(ts, ctx, att)
    decreases SizeSeq(ts), 2
  {
    var innerArbs: seq<Arbitrary> := [];
    var allProps: seq<string> := [];
    for i := 0 to |ts|
      invariant BuiltMembers(ts[..i], ctx, att) == Ok((allProps, innerArbs))
    {
      var m := ts[i];
      assert ts[..i + 1][..i] == ts[..i];
      if !HasProps(m) {
        BuiltMembersStops(ts, i + 1, ctx, att);
        return Err(NotAnObjectMember(m.name));
      }
      var keys := PropKeys(m);
      for j := 0 to |keys|
        invariant forall l :: 0 <= l < j ==> keys[l] !in allProps
      {
        if keys[j] in allProps {
          assert SharesField(m, allProps);
          BuiltMembersStops(ts, i + 1, ctx, att);
          return Err(OverlappingMember(m.name));
        }
      }
      assert !SharesField(m, allProps);
      allProps := allProps + keys;
      SizeSeqBound(ts, i);
      var g := DoGenArb(m, ctx, att);
      if g.Err? {
        BuiltMembersStops(ts, i + 1, ctx, att);
        return Err(g.error);
      }
      innerArbs := innerArbs + [g.value];
    }
    assert ts[..|ts|] == ts;
    return Ok((allProps, innerArbs));
  }

  /** `arb(typ, cfg)`: merges the caller's named arbitraries over the built-in ones, then walks. */
  method Arb(typ: Type, cfg: Option<Ctx>, att: Table) returns (r: Result<Arbitrary, Error>)
    ensures r == ArbOf(typ, cfg, att)
  {
    var mergedCfg := MergeCtx(DefaultCtx(), cfg);
    r := DoGenArb(typ, mergedCfg, att);
  }

  // ---------------------------------------------------------------------
  // The rules, stated over all inputs.

  /** Under `arb`, a caller's named arbitrary is used for every unattached descriptor of that name. */
  lemma CallerNameWins(typ: Type, cfg: Option<Ctx>, att: Table)
    requires Attached(att, typ).None? && cfg.Some? && Lookup(cfg.value, typ.name).Some?
    ensures ArbOf(typ, cfg, att) == Ok(Lookup(cfg.value, typ.name).value)
  {
    MergeCtxSpec(DefaultCtx(), cfg, typ.name);
  }

  /**
    Under `arb`, the built-in `Int`, `Date` and `UUID` arbitraries stay in use
    for unattached descriptors of those names unless the caller names them.
  */
  lemma BuiltinNamesKept(typ: Type, cfg: Option<Ctx>, att: Table)
    requires Attached(att, typ).None? && typ.name in {"Int", "Date", "UUID"}
    requires cfg.None? || Lookup(cfg.value, typ.name).None?
    ensures typ.name == "Int" ==> ArbOf(typ, cfg, att) == Ok(OneOf([Nat, Map(Nat, Negate)]))
    ensures typ.name == "Date" ==> ArbOf(typ, cfg, att) == Ok(Map(Nat, ToDate))
    ensures typ.name == "UUID" ==> ArbOf(typ, cfg, att) == Ok(Map(Nat, ToUuid))
  {
    MergeCtxSpec(DefaultCtx(), cfg, typ.name);
  }

  /** An attached generator wins over every name and every class rule; it is always run on the PRNG seeded with "0". */
  lemma AttachedWins(t: Type, ctx: Ctx, att: Table)
    requires Attached(att, t).Some?
    ensures Built(t, ctx, att) == Ok(Map(Constant(Undefined), RunFixed(Attached(att, t).value, 0)))
  {
  }

  /** A named arbitrary wins over the class rule, whatever the class. */
  lemma NamedWins(t: Type, ctx: Ctx, att: Table)
    requires Attached(att, t).None? && Lookup(ctx, t.name).Some?
    ensures Built(t, ctx, att) == Ok(Lookup(ctx, t.name).value)
  {
  }

  /** A class without a structural rule (a refinement, a brand or a hand-written type) throws "no generator" with its name. */
  lemma NoRuleFails(t: Type, ctx: Ctx, att: Table)
    requires NoOverride(t, ctx, att) && t.kind.RefinementType?
    ensures Built(t, ctx, att) == Err(NoGenerator(t.name))
  {
  }

  /** A number is drawn as a magnitude from `nat`, `integer` or `float`, or its negation. */
  lemma NumberRule(t: Type, ctx: Ctx, att: Table)
    requires NoOverride(t, ctx, att) && t.kind.NumberType?
    ensures Built(t, ctx, att) == Ok(OneOf([Num, Map(Num, Negate)]))
  {
  }

  /** A keyof descriptor picks one of its keys, each a constant string, in declaration order. */
  lemma KeyofRule(t: Type, ctx: Ctx, att: Table)
    requires NoOverride(t, ctx, att) && t.kind.KeyofType?
    ensures Built(t, ctx, att).Ok? && Built(t, ctx, att).value.OneOf?
    ensures var choices := Built(t, ctx, att).value.choices;
      |choices| == |t.kind.keys| && forall i :: 0 <= i < |choices| ==> choices[i] == Constant(LitString(t.kind.keys[i]))
  {
  }

  /**
    The leaf classes map to fixed fast-check arbitraries: a string, a boolean, a
    bigint, the literal's own value, null, undefined, and anything for unknown
    and any.
  */
  lemma LeafRules(t: Type, ctx: Ctx, att: Table)
    requires NoOverride(t, ctx, att)
    ensures t.kind.StringType? ==> Built(t, ctx, att) == Ok(Str)
    ensures t.kind.BooleanType? ==> Built(t, ctx, att) == Ok(Bool)
    ensures t.kind.BigIntType? ==> Built(t, ctx, att) == Ok(BigInt)
    ensures t.kind.LiteralType? ==> Built(t, ctx, att) == Ok(Constant(t.kind.value))
    ensures t.kind.NullType? ==> Built(t, ctx, att) == Ok(Constant(Null))
    ensures t.kind.UndefinedType? ==> Built(t, ctx, att) == Ok(Constant(Undefined))
    ensures t.kind.UnknownType? || t.kind.AnyType? ==> Built(t, ctx, att) == Ok(Anything)
  {
  }

  /** An array draws a list of its item's arbitrary, and fails exactly as the item does. */
  lemma ArrayRule(t: Type, ctx: Ctx, att: Table)
    requires NoOverride(t, ctx, att) && t.kind.ArrayType?
    ensures Built(t, ctx, att).Ok? <==> Built(t.kind.item, ctx, att).Ok?
    ensures Built(t, ctx, att).Ok? ==> Built(t, ctx, att).value == Array(Built(t.kind.item, ctx, att).value)
    ensures Built(t, ctx, att).Err? ==> Built(t, ctx, att) == Built(t.kind.item, ctx, att)
  {
  }

  /** gs holds one arbitrary per member, in order, each the one the member builds. */
  ghost predicate BuiltEach(ts: seq<Type>, gs: seq<Arbitrary>, ctx: Ctx, att: Table) {
    |gs| == |ts| && forall j :: 0 <= j < |ts| ==> Built(ts[j], ctx, att) == Ok(gs[j])
  }

  /** e is the error of the first member that fails to build. */
  ghost predicate FirstFailure(ts: seq<Type>, ctx: Ctx, att: Table, e: Error) {
    exists j :: && 0 <= j < |ts|
                && (forall i :: 0 <= i < j ==> Built(ts[i], ctx, att).Ok?)
                && Built(ts[j], ctx, att) == Err(e)
  }

  /**
    The members of a union or tuple are built in order: the list succeeds iff
    every member does, and otherwise fails with the error of the first member
    that fails.
  */
  lemma BuiltAllOk(ts: seq<Type>, ctx: Ctx, att: Table)
    ensures BuiltAll(ts, ctx, att).Ok? <==> forall j :: 0 <= j < |ts| ==> Built(ts[j], ctx, att).Ok?
    ensures BuiltAll(ts, ctx, att).Err? ==> FirstFailure(ts, ctx, att, BuiltAll(ts, ctx, att).error)
  {
    BuiltAllAllOk(ts, ctx, att);
    if BuiltAll(ts, ctx, att).Err? {
      BuiltAllFirstFailure(ts, ctx, att);
    }
  }

  /** The last member: the members before it, then its own arbitrary. */
  lemma BuiltAllLast(ts: seq<Type>, ctx: Ctx, att: Table)
    requires ts != []
    ensures var r, last := BuiltAll(ts[..|ts| - 1], ctx, att), Built(ts[|ts| - 1], ctx, att);
      BuiltAll(ts, ctx, att)
      == if r.Err? then Err(r.error) else if last.Err? then Err(last.error) else Ok(r.value + [last.value])
  {
  }

  lemma {:induction false} BuiltAllAllOk(ts: seq<Type>, ctx: Ctx, att: Table)
    ensures BuiltAll(ts, ctx, att).Ok? <==> forall j :: 0 <= j < |ts| ==> Built(ts[j], ctx, att).Ok?
  {
    if ts != [] {
      var n := |ts| - 1;
      var init := ts[..n];
      BuiltAllAllOk(init, ctx, att);
      BuiltAllLast(ts, ctx, att);
      assert forall j :: 0 <= j < n ==> init[j] == ts[j];
    }
  }

  lemma {:induction false} BuiltAllFirstFailure(ts: seq<Type>, ctx: Ctx, att: Table)
    requires BuiltAll(ts, ctx, att).Err?
    ensures FirstFailure(ts, ctx, att, BuiltAll(ts, ctx, att).error)
  {
    var n := |ts| - 1;
    var init, last := ts[..n], Built(ts[n], ctx, att);
    var r := BuiltAll(init, ctx, att);
    BuiltAllLast(ts, ctx, att);
    assert forall j :: 0 <= j < n ==> init[j] == ts[j];
    if r.Err? {
      BuiltAllFirstFailure(init, ctx, att);
      var j :| && 0 <= j < n
               && (forall i :: 0 <= i < j ==> Built(init[i], ctx, att).Ok?)
               && Built(init[j], ctx, att) == Err(r.error);
      assert Built(ts[j], ctx, att).Err?;
    } else {
      BuiltAllAllOk(init, ctx, att);
      assert forall i :: 0 <= i < n ==> Built(ts[i], ctx, att).Ok?;
      assert FirstFailure(ts, ctx, att, last.error);
    }
  }

  /** A built list holds one arbitrary per member, each the member's own, in order. */
  lemma {:induction false} BuiltAllValues(ts: seq<Type>, ctx: Ctx, att: Table)
    requires BuiltAll(ts, ctx, att).Ok?
    ensures BuiltEach(ts, BuiltAll(ts, ctx, att).value, ctx, att)
  {
    BuiltAllAllOk(ts, ctx, att);
    if ts != [] {
      var init := ts[..|ts| - 1];
      BuiltAllLast(ts, ctx, att);
      BuiltAllValues(init, ctx, att);
      assert forall j :: 0 <= j < |init| ==> init[j] == ts[j];
      var gs := BuiltAll(ts, ctx, att).value;
      assert forall j :: 0 <= j < |init| ==> gs[j] == BuiltAll(init, ctx, att).value[j];
    }
  }

  /** A union draws from one of its members' arbitraries, built in order; it fails as its first failing member does. */
  lemma UnionRule(t: Type, ctx: Ctx, att: Table)
    requires NoOverride(t, ctx, att) && t.kind.UnionType?
    ensures Built(t, ctx, att).Ok? <==> forall j :: 0 <= j < |t.kind.types| ==> Built(t.kind.types[j], ctx, att).Ok?
    ensures Built(t, ctx, att).Ok? ==>
      && Built(t, ctx, att).value.OneOf?
      && BuiltEach(t.kind.types, Built(t, ctx, att).value.choices, ctx, att)
    ensures Built(t, ctx, att).Err? ==> FirstFailure(t.kind.types, ctx, att, Built(t, ctx, att).error)
  {
    var all := BuiltAll(t.kind.types, ctx, att);
    assert Built(t, ctx, att) == if all.Ok? then Ok(OneOf(all.value)) else Err(all.error) by {
      assert Built(t, ctx, att) == Structural(t, ctx, att);
    }
    BuiltAllOk(t.kind.types, ctx, att);
    if all.Ok? {
      BuiltAllValues(t.kind.types, ctx, att);
    }
  }

  /** A tuple draws one value per member, from the members' arbitraries in order; it fails as its first failing member does. */
  lemma TupleRule(t: Type, ctx: Ctx, att: Table)
    requires NoOverride(t, ctx, att) && t.kind.TupleType?
    ensures Built(t, ctx, att).Ok? <==> forall j :: 0 <= j < |t.kind.types| ==> Built(t.kind.types[j], ctx, att).Ok?
    ensures Built(t, ctx, att).Ok? ==>
      && Built(t, ctx, att).value.Tuple?
      && BuiltEach(t.kind.types, Built(t, ctx, att).value.items, ctx, att)
    ensures Built(t, ctx, att).Err? ==> FirstFailure(t.kind.types, ctx, att, Built(t, ctx, att).error)
  {
    var all := BuiltAll(t.kind.types, ctx, att);
    assert Built(t, ctx, att) == if all.Ok? then Ok(Tuple(all.value)) else Err(all.error) by {
      assert Built(t, ctx, att) == Structural(t, ctx, att);
    }
    BuiltAllOk(t.kind.types, ctx, att);
    if all.Ok? {
      BuiltAllValues(t.kind.types, ctx, att);
    }
  }

  /** e is the error of the first field whose descriptor fails to build. */
  ghost predicate FirstFieldFailure(ps: seq<(string, Type)>, ctx: Ctx, att: Table, e: Error) {
    exists j :: && 0 <= j < |ps|
                && (forall i :: 0 <= i < j ==> Built(ps[i].1, ctx, att).Ok?)
                && Built(ps[j].1, ctx, att) == Err(e)
  }

  /** The last field: the fields before it, then its own arbitrary. */
  lemma BuiltFieldsLast(ps: seq<(string, Type)>, ctx: Ctx, att: Table)
    requires ps != []
    ensures var r, last := BuiltFields(ps[..|ps| - 1], ctx, att), Built(ps[|ps| - 1].1, ctx, att);
      BuiltFields(ps, ctx, att)
      == if r.Err? then Err(r.error) else if last.Err? then Err(last.error) else Ok(Put(r.value, ps[|ps| - 1].0, last.value))
  {
  }

  /** The record model of a struct succeeds iff every field builds, and otherwise throws the first failing field's error. */
  lemma BuiltFieldsOk(ps: seq<(string, Type)>, ctx: Ctx, att: Table)
    ensures BuiltFields(ps, ctx, att).Ok? <==> forall j :: 0 <= j < |ps| ==> Built(ps[j].1, ctx, att).Ok?
    ensures BuiltFields(ps, ctx, att).Err? ==> FirstFieldFailure(ps, ctx, att, BuiltFields(ps, ctx, att).error)
  {
    BuiltFieldsAllOk(ps, ctx, att);
    if BuiltFields(ps, ctx, att).Err? {
      BuiltFieldsFirstFailure(ps, ctx, att);
    }
  }

  lemma {:induction false} BuiltFieldsAllOk(ps: seq<(string, Type)>, ctx: Ctx, att: Table)
    ensures BuiltFields(ps, ctx, att).Ok? <==> forall j :: 0 <= j < |ps| ==> Built(ps[j].1, ctx, att).Ok?
  {
    if ps != [] {
      var n := |ps| - 1;
      var init := ps[..n];
      BuiltFieldsAllOk(init, ctx, att);
      BuiltFieldsLast(ps, ctx, att);
      assert forall j :: 0 <= j < n ==> init[j] == ps[j];
    }
  }

  lemma {:induction false} BuiltFieldsFirstFailure(ps: seq<(string, Type)>, ctx: Ctx, att: Table)
    requires BuiltFields(ps, ctx, att).Err?
    ensures FirstFieldFailure(ps, ctx, att, BuiltFields(ps, ctx, att).error)
  {
    var n := |ps| - 1;
    var init, last := ps[..n], Built(ps[n].1, ctx, att);
    var r := BuiltFields(init, ctx, att);
    BuiltFieldsLast(ps, ctx, att);
    assert forall j :: 0 <= j < n ==> init[j] == ps[j];
    if r.Err? {
      BuiltFieldsFirstFailure(init, ctx, att);
      var j :| && 0 <= j < n
               && (forall i :: 0 <= i < j ==> Built(init[i].1, ctx, att).Ok?)
               && Built(init[j].1, ctx, att) == Err(r.error);
      assert Built(ps[j].1, ctx, att).Err?;
    } else {
      BuiltFieldsAllOk(init, ctx, att);
      assert forall i :: 0 <= i < n ==> Built(ps[i].1, ctx, att).Ok?;
      assert FirstFieldFailure(ps, ctx, att, last.error);
    }
  }




  /**
    A built record model holds the struct's field names, each once, and a field
    holds the arbitrary of the descriptor declared last for it.
  */
  lemma BuiltFieldsModel(ps: seq<(string, Type)>, ctx: Ctx, att: Table)
    requires BuiltFields(ps, ctx, att).Ok?
    ensures KeysOf(BuiltFields(ps, ctx, att).value) == KeysOf(ps)
    ensures UniqueKeys(BuiltFields(ps, ctx, att).value)
    ensures forall i, k :: IsLastWrite(ps, i, k) ==>
      Built(ps[i].1, ctx, att).Ok? && Get(BuiltFields(ps, ctx, att).value, k) == Some(Built(ps[i].1, ctx, att).value)
  {
    BuiltFieldsKeys(ps, ctx, att);
    BuiltFieldsGet(ps, ctx, att);
  }

  lemma {:induction false} BuiltFieldsKeys(ps: seq<(string, Type)>, ctx: Ctx, att: Table)
    requires BuiltFields(ps, ctx, att).Ok?
    ensures KeysOf(BuiltFields(ps, ctx, att).value) == KeysOf(ps)
    ensures UniqueKeys(BuiltFields(ps, ctx, att).value)
  {
    if ps != [] {
      var init, last := ps[..|ps| - 1], ps[|ps| - 1];
      BuiltFieldsLast(ps, ctx, att);
      var model := BuiltFields(init, ctx, att).value;
      var g := Built(last.1, ctx, att).value;
      assert BuiltFields(ps, ctx, att).value == Put(model, last.0, g);
      BuiltFieldsKeys(init, ctx, att);
      KeysOfSnoc(init, last);
      assert ps == init + [last];
      PutKeepsOrder(model, last.0, g);
    }
  }

  lemma {:induction false} BuiltFieldsGet(ps: seq<(string, Type)>, ctx: Ctx, att: Table)
    requires BuiltFields(ps, ctx, att).Ok?
    ensures forall i, k :: IsLastWrite(ps, i, k) ==>
      Built(ps[i].1, ctx, att).Ok? && Get(BuiltFields(ps, ctx, att).value, k) == Some(Built(ps[i].1, ctx, att).value)
  {
    if ps != [] {
      var init, last := ps[..|ps| - 1], ps[|ps| - 1];
      BuiltFieldsLast(ps, ctx, att);
      var model := BuiltFields(init, ctx, att).value;
      var g := Built(last.1, ctx, att).value;
      BuiltFieldsGet(init, ctx, att);
      forall i, k | IsLastWrite(ps, i, k)
        ensures Built(ps[i].1, ctx, att).Ok? && Get(Put(model, last.0, g), k) == Some(Built(ps[i].1, ctx, att).value)
      {
        if k != last.0 {
          assert IsLastWrite(init, i, k);
        }
      }
    }
  }


  /**
    A struct is drawn as a record with exactly its field names, each field from
    the arbitrary of its descriptor; it fails as its first failing field does.
  */
  lemma StructRule(t: Type, ctx: Ctx, att: Table)
    requires NoOverride(t, ctx, att) && t.kind.InterfaceType?
    ensures Built(t, ctx, att).Ok? <==> forall j :: 0 <= j < |t.kind.props| ==> Built(t.kind.props[j].1, ctx, att).Ok?
    ensures Built(t, ctx, att).Ok? ==>
      && Built(t, ctx, att).value.Record?
      && KeysOf(Built(t, ctx, att).value.model) == KeysOf(t.kind.props)
      && UniqueKeys(Built(t, ctx, att).value.model)
      && forall i, k :: IsLastWrite(t.kind.props, i, k) ==>
           Built(t.kind.props[i].1, ctx, att).Ok? && Get(Built(t, ctx, att).value.model, k) == Some(Built(t.kind.props[i].1, ctx, att).value)
    ensures Built(t, ctx, att).Err? ==> FirstFieldFailure(t.kind.props, ctx, att, Built(t, ctx, att).error)
  {
    var fields := BuiltFields(t.kind.props, ctx, att);
    assert Built(t, ctx, att) == if fields.Ok? then Ok(Record(fields.value)) else Err(fields.error) by {
      assert Built(t, ctx, att) == Structural(t, ctx, att);
    }
    BuiltFieldsOk(t.kind.props, ctx, att);
    if fields.Ok? {
      BuiltFieldsModel(t.kind.props, ctx, att);
    }
  }

  /**
    A field made optional draws from its descriptor or is `undefined` (when
    neither the union nor `undefined` is overridden by name).
  */
  lemma OptionalRule(v: Type, ctx: Ctx, att: Table)
    requires NoOverride(Optional(v), ctx, att) && NoOverride(UndefinedDescriptor, ctx, att)
    ensures Built(Optional(v), ctx, att)
         == if Built(v, ctx, att).Ok? then Ok(OneOf([Built(v, ctx, att).value, Constant(Undefined)]))
            else Err(Built(v, ctx, att).error)
  {
    var ts := [v, UndefinedDescriptor];
    var all := BuiltAll(ts, ctx, att);
    assert Built(Optional(v), ctx, att) == if all.Ok? then Ok(OneOf(all.value)) else Err(all.error) by {
      assert Built(Optional(v), ctx, att) == Structural(Optional(v), ctx, att);
    }
    assert Built(UndefinedDescriptor, ctx, att) == Ok(Constant(Undefined));
    BuiltAllOk(ts, ctx, att);
    if Built(v, ctx, att).Ok? {
      BuiltAllValues(ts, ctx, att);
      assert all.value == [Built(v, ctx, att).value, Constant(Undefined)];
    } else {
      assert FirstFailure(ts, ctx, att, all.error);
    }
  }

  /**
    A partial struct is built as the struct with the same field names, each
    field made optional; so when none of the rewritten descriptors is named, it
    draws a record whose fields are each drawn from their descriptor or are
    `undefined`.
  */
  lemma PartialRule(t: Type, ctx: Ctx, att: Table, k: string)
    requires NoOverride(t, ctx, att) && t.kind.PartialType?
    ensures Built(t, ctx, att) == Built(Interface(OptionalProps(t.kind.props)), ctx, att)
    ensures KeysOf(OptionalProps(t.kind.props)) == KeysOf(t.kind.props)
    ensures forall i :: IsLastWrite(t.kind.props, i, k) ==>
      Get(OptionalProps(t.kind.props), k) == Some(Optional(t.kind.props[i].1))
  {
    OptionalPropsSpec(t.kind.props, k);
  }

  /** A readonly descriptor is built as the descriptor it wraps. */
  lemma ReadonlyRule(t: Type, ctx: Ctx, att: Table)
    requires NoOverride(t, ctx, att) && t.kind.ReadonlyType?
    ensures Built(t, ctx, att) == Built(t.kind.inner, ctx, att)
  {
  }

  /**
    A readonly array is built as the writable array of the same item; unless
    that array's name is overridden, it is an array of the item's arbitrary.
  */
  lemma ReadonlyArrayRule(t: Type, ctx: Ctx, att: Table)
    requires NoOverride(t, ctx, att) && t.kind.ReadonlyArrayType?
    ensures Built(t, ctx, att) == Built(WritableArray(t.kind.item), ctx, att)
    ensures NoOverride(WritableArray(t.kind.item), ctx, att) ==>
      (Built(t, ctx, att).Ok? <==> Built(t.kind.item, ctx, att).Ok?) &&
      (Built(t, ctx, att).Ok? ==> Built(t, ctx, att).value == Array(Built(t.kind.item, ctx, att).value))
  {
    var w := WritableArray(t.kind.item);
    if NoOverride(w, ctx, att) {
      assert Built(w, ctx, att) == Structural(w, ctx, att);
    }
  }

  /**
    A dictionary draws a list of (key, value) pairs and folds it into an object;
    the domain is built before the codomain, so a failing domain's error wins.
  */
  lemma DictionaryRule(t: Type, ctx: Ctx, att: Table)
    requires NoOverride(t, ctx, att) && t.kind.DictionaryType?
    ensures Built(t, ctx, att).Ok? <==> Built(t.kind.domain, ctx, att).Ok? && Built(t.kind.codomain, ctx, att).Ok?
    ensures Built(t, ctx, att).Ok? ==>
      Built(t, ctx, att).value
      == Map(Array(Tuple([Built(t.kind.domain, ctx, att).value, Built(t.kind.codomain, ctx, att).value])), ToDictionary)
    ensures Built(t.kind.domain, ctx, att).Err? ==> Built(t, ctx, att) == Built(t.kind.domain, ctx, att)
  {
  }

  // The intersection rule.

  /** The field names of a descriptor's `props`, as a set. */
  ghost function FieldSet(t: Type): set<string> {
    set k | k in FieldNames(t)
  }

  /** Member m shares a field name with one of the members before it. */
  ghost predicate Clashes(before: seq<Type>, m: Type) {
    exists i :: 0 <= i < |before| && !(FieldSet(before[i]) !! FieldSet(m))
  }

  /** Member m, after the members before it, passes both checks and builds. */
  ghost predicate Admitted(before: seq<Type>, m: Type, ctx: Ctx, att: Table) {
    HasProps(m) && !Clashes(before, m) && Built(m, ctx, att).Ok?
  }

  /** What the intersection loop throws at a member that is not admitted. */
  ghost function Rejection(before: seq<Type>, m: Type, ctx: Ctx, att: Table): Error
    requires !Admitted(before, m, ctx, att)
  {
    if !HasProps(m) then NotAnObjectMember(m.name)
    else if Clashes(before, m) then OverlappingMember(m.name)
    else Built(m, ctx, att).error
  }

  /** Every member up to n is admitted after the members before it. */
  ghost predicate AllAdmitted(ts: seq<Type>, n: int, ctx: Ctx, att: Table)
    requires 0 <= n <= |ts|
  {
    forall j :: 0 <= j < n ==> Admitted(ts[..j], ts[j], ctx, att)
  }

  /** e is what the loop throws at the first member that is not admitted. */
  ghost predicate FirstRejection(ts: seq<Type>, ctx: Ctx, att: Table, e: Error) {
    exists j :: && 0 <= j < |ts|
                && AllAdmitted(ts, j, ctx, att)
                && !Admitted(ts[..j], ts[j], ctx, att)
                && e == Rejection(ts[..j], ts[j], ctx, att)
  }

  /** The field names of the members before, as the loop's `allProps` collects them. */
  ghost function SeenFields(before: seq<Type>): set<string> {
    set j, k | 0 <= j < |before| && k in FieldNames(before[j]) :: k
  }

  lemma SeenFieldsSnoc(before: seq<Type>, m: Type)
    ensures SeenFields(before + [m]) == SeenFields(before) + (set k | k in FieldNames(m))
  {
    var s := before + [m];
    forall k | k in SeenFields(s) ensures k in SeenFields(before) || k in FieldNames(m) {
      var j :| 0 <= j < |s| && k in FieldNames(s[j]);
      if j < |before| {
        assert s[j] == before[j];
      }
    }
    forall k | k in SeenFields(before) ensures k in SeenFields(s) {
      var j :| 0 <= j < |before| && k in FieldNames(before[j]);
      assert s[j] == before[j];
    }
    assert s[|before|] == m;
  }

  /** A field name of m that `allProps` holds is a field name of an earlier member. */
  lemma ClashFound(before: seq<Type>, m: Type, allProps: seq<string>)
    requires HasProps(m) && SharesField(m, allProps)
    requires (set k | k in allProps) == SeenFields(before)
    ensures Clashes(before, m)
  {
    var keys := PropKeys(m);
    var i :| 0 <= i < |keys| && keys[i] in allProps;
    var k := keys[i];
    assert k in (set k | k in allProps);
    assert k in SeenFields(before);
    var j :| 0 <= j < |before| && k in FieldNames(before[j]);
    assert FieldNames(m) == keys;
    assert k in FieldSet(before[j]);
    assert k in FieldSet(m);
  }

  /** A field name m shares with an earlier member is in `allProps`. */
  lemma ClashSeen(before: seq<Type>, m: Type, allProps: seq<string>)
    requires HasProps(m) && Clashes(before, m)
    requires (set k | k in allProps) == SeenFields(before)
    ensures SharesField(m, allProps)
  {
    var keys := PropKeys(m);
    var j :| 0 <= j < |before| && !(FieldSet(before[j]) !! FieldSet(m));
    var k :| k in FieldSet(before[j]) && k in FieldSet(m);
    assert k in FieldNames(before[j]);
    assert k in SeenFields(before);
    assert k in (set k | k in allProps);
    assert FieldNames(m) == keys;
    var i :| 0 <= i < |keys| && keys[i] == k;
  }

  /** The source's `allProps.includes(k)` check over m's fields is Clashes. */
  lemma ClashCheck(before: seq<Type>, m: Type, allProps: seq<string>)
    requires HasProps(m)
    requires (set k | k in allProps) == SeenFields(before)
    ensures SharesField(m, allProps) <==> Clashes(before, m)
  {
    if SharesField(m, allProps) {
      ClashFound(before, m, allProps);
    }
    if Clashes(before, m) {
      ClashSeen(before, m, allProps);
    }
  }

  /** Admission of the first n members does not look past them. */
  lemma AllAdmittedPrefix(ts: seq<Type>, p: int, n: int, ctx: Ctx, att: Table)
    requires 0 <= n <= p <= |ts|
    ensures AllAdmitted(ts[..p], n, ctx, att) <==> AllAdmitted(ts, n, ctx, att)
  {
    assert forall j :: 0 <= j < n ==> ts[..p][j] == ts[j] && ts[..p][..j] == ts[..j];
  }

  lemma AllAdmittedSnoc(ts: seq<Type>, n: int, ctx: Ctx, att: Table)
    requires 0 <= n < |ts|
    ensures AllAdmitted(ts, n + 1, ctx, att) <==> AllAdmitted(ts, n, ctx, att) && Admitted(ts[..n], ts[n], ctx, att)
  {
  }

  /** The first rejection among the first p members is the first rejection of all. */
  lemma FirstRejectionPrefix(ts: seq<Type>, p: int, e: Error, ctx: Ctx, att: Table)
    requires 0 <= p <= |ts| && FirstRejection(ts[..p], ctx, att, e)
    ensures FirstRejection(ts, ctx, att, e)
  {
    var pre := ts[..p];
    var j :| && 0 <= j < |pre|
             && AllAdmitted(pre, j, ctx, att)
             && !Admitted(pre[..j], pre[j], ctx, att)
             && e == Rejection(pre[..j], pre[j], ctx, att);
    AllAdmittedPrefix(ts, p, j, ctx, att);
    assert pre[j] == ts[j] && pre[..j] == ts[..j];
  }

  /**
    The intersection loop succeeds iff every member is admitted, and otherwise
    throws the rejection of the first member not admitted; what it has seen is
    every member's field names.
  */
  lemma {:induction false} BuiltMembersOk(ts: seq<Type>, ctx: Ctx, att: Table)
    ensures BuiltMembers(ts, ctx, att).Ok? <==> AllAdmitted(ts, |ts|, ctx, att)
    ensures BuiltMembers(ts, ctx, att).Ok? ==> (set k | k in BuiltMembers(ts, ctx, att).value.0) == SeenFields(ts)
    ensures BuiltMembers(ts, ctx, att).Err? ==> FirstRejection(ts, ctx, att, BuiltMembers(ts, ctx, att).error)
  {
    if ts != [] {
      var n := |ts| - 1;
      var init, m := ts[..n], ts[n];
      BuiltMembersOk(init, ctx, att);
      AllAdmittedPrefix(ts, n, n, ctx, att);
      AllAdmittedSnoc(ts, n, ctx, att);
      var r := BuiltMembers(init, ctx, att);
      if r.Err? {
        assert BuiltMembers(ts, ctx, att) == r;
        FirstRejectionPrefix(ts, n, r.error, ctx, att);
      } else {
        if HasProps(m) {
          ClashCheck(init, m, r.value.0);
        }
        if Admitted(init, m, ctx, att) {
          var keys := PropKeys(m);
          SeenFieldsSnoc(init, m);
          assert ts == init + [m];
          assert FieldNames(m) == keys;
          assert BuiltMembers(ts, ctx, att).value.0 == r.value.0 + keys;
          assert (set k | k in r.value.0 + keys) == (set k | k in r.value.0) + (set k | k in keys);
        } else {
          assert BuiltMembers(ts, ctx, att).error == Rejection(init, m, ctx, att);
        }
      }
    }
  }

  /** A successful loop's last member was an object that built, after a successful loop over the others. */
  lemma BuiltMembersLastOk(ts: seq<Type>, ctx: Ctx, att: Table)
    requires ts != [] && BuiltMembers(ts, ctx, att).Ok?
    ensures var r, m := BuiltMembers(ts[..|ts| - 1], ctx, att), ts[|ts| - 1];
      && r.Ok? && HasProps(m) && Built(m, ctx, att).Ok?
      && BuiltMembers(ts, ctx, att).value == (r.value.0 + PropKeys(m), r.value.1 + [Built(m, ctx, att).value])
  {
  }

  /** A successful intersection loop holds one arbitrary per member, each the member's own, in order. */
  lemma {:induction false} BuiltMembersValues(ts: seq<Type>, ctx: Ctx, att: Table)
    requires BuiltMembers(ts, ctx, att).Ok?
    ensures BuiltEach(ts, BuiltMembers(ts, ctx, att).value.1, ctx, att)
  {
    if ts != [] {
      var n := |ts| - 1;
      var init := ts[..n];
      BuiltMembersLastOk(ts, ctx, att);
      BuiltMembersValues(init, ctx, att);
      assert forall j :: 0 <= j < n ==> init[j] == ts[j];
      var gs := BuiltMembers(ts, ctx, att).value.1;
      assert forall j :: 0 <= j < n ==> gs[j] == BuiltMembers(init, ctx, att).value.1[j];
    }
  }


  /** No two members of the list share a field name. */
  ghost predicate PairwiseDisjoint(ts: seq<Type>) {
    forall i, j :: 0 <= i < j < |ts| ==> FieldSet(ts[i]) !! FieldSet(ts[j])
  }

  lemma AllAdmittedIff(ts: seq<Type>, ctx: Ctx, att: Table)
    ensures AllAdmitted(ts, |ts|, ctx, att)
        <==> && (forall j :: 0 <= j < |ts| ==> HasProps(ts[j]) && Built(ts[j], ctx, att).Ok?)
             && PairwiseDisjoint(ts)
  {
    if AllAdmitted(ts, |ts|, ctx, att) {
      forall i, j | 0 <= i < j < |ts| ensures FieldSet(ts[i]) !! FieldSet(ts[j]) {
        assert Admitted(ts[..j], ts[j], ctx, att);
        assert ts[..j][i] == ts[i];
      }
    }
    if PairwiseDisjoint(ts) {
      forall j | 0 <= j < |ts| ensures !Clashes(ts[..j], ts[j]) {
        assert forall i :: 0 <= i < j ==> ts[..j][i] == ts[i];
      }
    }
  }

  /**
    An intersection builds iff every member has own `props`, builds, and no two
    members share a field name; it then draws one value per member and merges
    them. Otherwise it throws at the first member that is not an object, that
    reuses an earlier field name, or that fails to build.
  */
  lemma IntersectionRule(t: Type, ctx: Ctx, att: Table)
    requires NoOverride(t, ctx, att) && t.kind.IntersectionType?
    ensures Built(t, ctx, att).Ok?
        <==> && (forall j :: 0 <= j < |t.kind.types| ==> HasProps(t.kind.types[j]) && Built(t.kind.types[j], ctx, att).Ok?)
             && PairwiseDisjoint(t.kind.types)
    ensures Built(t, ctx, att).Ok? ==>
      && Built(t, ctx, att).value.Map?
      && Built(t, ctx, att).value.f == ShallowMerge
      && Built(t, ctx, att).value.source.Tuple?
      && BuiltEach(t.kind.types, Built(t, ctx, att).value.source.items, ctx, att)
    ensures Built(t, ctx, att).Err? ==> FirstRejection(t.kind.types, ctx, att, Built(t, ctx, att).error)
  {
    var res := BuiltMembers(t.kind.types, ctx, att);
    assert Built(t, ctx, att) == if res.Ok? then Ok(Map(Tuple(res.value.1), ShallowMerge)) else Err(res.error) by {
      assert Built(t, ctx, att) == Structural(t, ctx, att);
    }
    BuiltMembersOk(t.kind.types, ctx, att);
    AllAdmittedIff(t.kind.types, ctx, att);
    if res.Ok? {
      BuiltMembersValues(t.kind.types, ctx, att);
    }
  }

  /**
    What the merge of an intersection's drawn parts holds: when each member's
    drawn object has only that member's field names, the merge holds the union
    of the parts' keys, and each key reads as in the one part that has it.
  */
  lemma IntersectionMerge<V>(t: Type, ctx: Ctx, att: Table, parts: seq<Obj<V>>)
    requires NoOverride(t, ctx, att) && t.kind.IntersectionType? && Built(t, ctx, att).Ok?
    requires |parts| == |t.kind.types|
    requires forall j :: 0 <= j < |parts| ==> KeysOf(parts[j]) <= FieldSet(t.kind.types[j])
    ensures KeysOf(MergeAll(parts)) == UnionOfKeys(parts)
    ensures forall j, k :: 0 <= j < |parts| && k in KeysOf(parts[j]) ==> Get(MergeAll(parts), k) == Get(parts[j], k)
  {
    IntersectionRule(t, ctx, att);
    MergeDisjoint(parts);
  }
}
