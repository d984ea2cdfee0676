# mock-data-gen, modelled in Dafny

mock-data-gen generates test data from io-ts runtime type descriptors. This
project models its generation engine:

- `doGenArb` walks a descriptor and builds the fast-check arbitrary for it.
- `arb` first merges the caller's named arbitraries over the built-in `Int`,
  `Date` and `UUID` ones.
- `withGenerator` / `getGenerator` attach a generator to one descriptor
  object. They keep a metadata table keyed by object identity.
- `gen` / `genOne` turn the arbitrary into a seeded stream of values. The
  stream keeps its settings in the module-level defaults object.
- `randomPick`, `randomString` and `randomUUID` are the seeded string
  helpers behind the built-in `UUID` generator.

Every descriptor, nested ones included, is resolved in this order:

1. a generator attached with `withGenerator`;
2. the arbitrary named like the descriptor;
3. the rule for its io-ts class.

A class without a rule is an error.

## Modules

| file | module | models |
|---|---|---|
| `wrappers.dfy` | `Wrappers` | `Option` and `Result` |
| `js_objects.dfy` | `JsObjects` | a JavaScript object as an ordered list of entries: `ret[k] = v`, `Object.assign`, and the two folding loops |
| `random_seed.dfy` | `RandomSeed` | the seeded PRNG as a parameter; the generators a caller can supply |
| `descriptors.dfy` | `Descriptors` | io-ts descriptors, the ones the engine builds itself, and the size measure of the walk |
| `with_generator.dfy` | `WithGenerator` | the metadata table (`Registry`), `withGenerator`, `getGenerator` and the deep copy |
| `mock_data_gen_arb.dfy` | `MockDataGenArb` | `doGenArb` and `arb` as methods, each proved equal to a specification function; a lemma for every class rule |
| `mock_data_gen.dfy` | `MockDataGen` | the defaults object (`Defaults`), `doGenValue`, the generator object (`Stream`), `gen` and `genOne` |
| `random_helpers.dfy` | `RandomHelpers` | `randomPick`, `randomString` and `randomUUID` |

### How the engine is modelled

- An arbitrary is a description of what fast-check is asked to build, e.g.
  `OneOf([Num, Map(Num, Negate)])`.
- Sampling an arbitrary is a parameter, `sample(arbitrary, seed)`. It stands
  for `fc.sample(arb, { seed, numRuns: 1 })[0]`.
- The seeded PRNG is a parameter, `draw(prngSeed, lo, hi)`. It stands for
  `r.create(`${prngSeed}`).intBetween(lo, hi)` and is only known to return a
  number in `[lo, hi]`.
- Each loop of the source is a method with the loop and its invariants. It is
  proved equal to a recursive specification function. The properties are then
  lemmas about that function:
  - the intersection loop (`DoGenMembers`);
  - the struct loop (`DoGenFields`);
  - the partial rewrite (`RewritePartial`);
  - the dictionary and merge folds (`CollectEntries`, `MergeObjects`);
  - the named-arbitrary loop (`BuildNamedArbs`);
  - the `randomString` loop.
- Two kinds of state are updated in place, so they are classes:
  - the metadata table, `WithGenerator.Registry`;
  - the shared defaults object, `MockDataGen.Defaults`, together with the
    generator object `MockDataGen.Stream`.

### Behaviour the model makes explicit

- **Attached generators ignore the seed.** `doGenArb` runs an attached
  generator on the PRNG created from the string `"0"`
  (src/lib/mock-data-gen-arb.ts:38). So every draw of such a descriptor is
  the same value, whatever the stream's seed (`AttachedDrawIgnoresSeed`).
  The regression test at src/lib/regression-tests.spec.ts:9-21 expects the
  values of a stream to differ. The model follows the code.
- **Streams share their seed.** `gen` merges the caller's settings into the
  one module-level `defaultCfg` object and increments that object's seed
  (src/lib/mock-data-gen.ts:56-60). A stream started after another has
  advanced therefore starts at the advanced seed
  (`SharedSeedAcrossStreams`). For the same reason a merged `seed` or
  `namedTypeGens` stays in place for later calls that give none. The stream
  tests at src/lib/mock-data-gen.spec.ts:34-46 describe independent streams.
  The model follows the code.
- **Intersection checks interleave with building.** The intersection loop
  checks and builds one member at a time (src/lib/mock-data-gen-arb.ts:126-148).
  So a member that fails to build is reported before a later member that
  lacks `props` or reuses a field name. The error reported is always the
  first member's rejection (`FirstRejection`). Whether the intersection
  builds at all does not depend on the order: it builds iff every member is
  an object that builds and the field-name sets are pairwise disjoint
  (`IntersectionRule`).
- **A partial struct is a struct of optional fields.** Each field becomes
  `t.union([v, t.undefined])`, so a field is either drawn or `undefined`,
  chosen by fast-check's `oneof` (`PartialRule`, `OptionalRule`). The
  rewritten descriptors are ordinary descriptors. A named arbitrary for a
  name like `(T | undefined)` would therefore apply to them.

## Model

| member | source | states |
|---|---|---|
| `JsObjects.Put` | src/lib/mock-data-gen-arb.ts:95 | after `ret[k] = v`, k reads v and every other key reads as before; the key set gains k, and the entry count grows only when k is new |
| `JsObjects.PutKeepsOrder` | src/lib/mock-data-gen-arb.ts:95 | an assignment keeps every existing entry in place, appends a new key last, and keeps keys unique |
| `JsObjects.Assign` | src/lib/mock-data-gen-arb.ts:153 | after `Object.assign(ret, src)` the key set is the union of both key sets |
| `JsObjects.AssignKeepsUnique` | src/lib/mock-data-gen-arb.ts:153 | `Object.assign` never duplicates a key |
| `JsObjects.AssignGet` | src/lib/mock-data-gen-arb.ts:153 | after `Object.assign`, a key absent from the source reads as before, and a key of the source reads as the source's last write to it |
| `JsObjects.AssignGetOwn` | src/lib/mock-data-gen-arb.ts:153 | after `Object.assign`, a key of the source object reads as in that object |
| `JsObjects.FromEntriesSpec` | src/lib/mock-data-gen-arb.ts:92-97 | the dictionary built from drawn pairs has exactly the drawn keys, each once; an undrawn key is undefined; a drawn key reads as its last pair's value |
| `JsObjects.CollectEntries` | src/lib/mock-data-gen-arb.ts:92-97 | the `for ... ret[k] = v` loop computes the folded dictionary |
| `JsObjects.MergeAllSpec` | src/lib/mock-data-gen-arb.ts:150-156 | the merged object has the union of the parts' keys; a key reads as in the last part that has it |
| `JsObjects.MergeDisjoint` | src/lib/mock-data-gen-arb.ts:150-156 | when the parts' keys are pairwise disjoint, every key reads as in the one part that has it, whatever the order |
| `JsObjects.MergeObjects` | src/lib/mock-data-gen-arb.ts:150-156 | the `Object.assign` loop computes the merged object |
| `Descriptors.PropKeys` | src/lib/mock-data-gen-arb.ts:139 | `Object.keys(props)` has one entry per declared field, and a name is listed iff it is one of the struct's own field names |
| `Descriptors.Erase` | src/lib/withGenerator.ts:16 | a deep copy keeps names, classes, fields and order, and no descriptor in it, at any depth, is registered |
| `WithGenerator.EraseTwice` | src/lib/withGenerator.ts:16 | a deep copy of a deep copy is that deep copy |
| `WithGenerator.Clone` | src/lib/withGenerator.ts:16-17 | the returned copy carries the new identity, equals the original up to attachments, and has no registered descriptor nested in it |
| `WithGenerator.Registry.constructor` | src/lib/withGenerator.ts:7 | the metadata table starts empty |
| `WithGenerator.Registry.GetGenerator` | src/lib/withGenerator.ts:21-25 | a descriptor never returned by `withGenerator` has no generator; a found generator is one that was registered |
| `WithGenerator.Registry.WithGenerator` | src/lib/withGenerator.ts:8-19 | throws iff the descriptor already has a generator, changing nothing; otherwise returns a new registered copy that carries g, while the input and every earlier registration keep their generators |
| `WithGenerator.AttachToSameOriginal` | src/lib/withGenerator.ts:8-19 | attaching twice to one unregistered descriptor gives two distinct copies with their own generators and leaves the original unregistered; attaching to a returned copy throws |
| `MockDataGenArb.MergeCtxSpec` | src/lib/mock-data-gen-arb.ts:188-194 | the merged context has every name of either side; a name reads as the caller's arbitrary if the caller gives one, else as the built-in |
| `MockDataGenArb.CallerNameWins` | src/lib/mock-data-gen-arb.ts:188-194 | through `arb`, a descriptor without an attached generator and named by the caller is drawn from the caller's arbitrary |
| `MockDataGenArb.BuiltinNamesKept` | src/lib/mock-data-gen-arb.ts:16-27 | through `arb`, `Int`, `Date` and `UUID` keep their built-in arbitraries unless the caller names them |
| `MockDataGenArb.OptionalPropsSpec` | src/lib/mock-data-gen-arb.ts:113-116 | the rewritten props have the partial's field names, each once, and each field holds `union([v, undefined])` of the descriptor declared last for it |
| `MockDataGenArb.RewritePartial` | src/lib/mock-data-gen-arb.ts:113-116 | the rewriting loop computes the optional props |
| `MockDataGenArb.SizePartialRewrite` | src/lib/mock-data-gen-arb.ts:109-119 | the rewritten struct is smaller than the partial it replaces, so the recursion on it terminates |
| `MockDataGenArb.DoGenArb` | src/lib/mock-data-gen-arb.ts:30-186 | `doGenArb` returns exactly the arbitrary (or throws exactly the error) of the specification `Built`, whose rules the lemmas below state |
| `MockDataGenArb.DoGenStructural` | src/lib/mock-data-gen-arb.ts:50-185 | the class dispatch of `doGenArb` computes the class rules |
| `MockDataGenArb.DoGenAll` | src/lib/mock-data-gen-arb.ts:72-75 | `types.map(doGenArb)` builds the members in order and throws the first member's error |
| `MockDataGenArb.DoGenFields` | src/lib/mock-data-gen-arb.ts:79-82 | the struct loop fills the record model field by field and throws the first field's error |
| `MockDataGenArb.DoGenMembers` | src/lib/mock-data-gen-arb.ts:124-148 | the intersection loop checks, then builds, each member in order |
| `MockDataGenArb.Arb` | src/lib/mock-data-gen-arb.ts:188-194 | `arb` builds under the built-in names merged with the caller's |
| `MockDataGenArb.AttachedWins` | src/lib/mock-data-gen-arb.ts:36-39 | a descriptor with an attached generator is drawn from that generator alone, run on the PRNG seeded "0", before any name or class rule |
| `MockDataGenArb.NamedWins` | src/lib/mock-data-gen-arb.ts:41-48 | otherwise a descriptor whose name has an arbitrary is drawn from it, whatever its class |
| `MockDataGenArb.NoRuleFails` | src/lib/mock-data-gen-arb.ts:185 | a descriptor of a class without a rule (a branded or refined type, a hand-written `t.Type`) and with neither override throws "no generator for type <name>" |
| `MockDataGenArb.NumberRule` | src/lib/mock-data-gen-arb.ts:59-65 | a number is a natural, integer or float magnitude, taken as is or negated |
| `MockDataGenArb.KeyofRule` | src/lib/mock-data-gen-arb.ts:53-58 | a keyof is a choice among exactly its declared keys, in order |
| `MockDataGenArb.LeafRules` | src/lib/mock-data-gen-arb.ts:50-184 | the leaf classes (lines 50-52, 66-71, 100-102, 158-160 and 176-184) draw a string, a boolean, a bigint, the literal's own value, null, undefined, or anything for unknown and any |
| `MockDataGenArb.ArrayRule` | src/lib/mock-data-gen-arb.ts:172-175 | an array builds iff its item builds, draws a list of the item's arbitrary, and otherwise throws the item's error |
| `MockDataGenArb.BuiltAllOk` | src/lib/mock-data-gen-arb.ts:74 | building a list of members succeeds iff every member builds; otherwise it throws the first failing member's error |
| `MockDataGenArb.BuiltAllValues` | src/lib/mock-data-gen-arb.ts:74 | on success, arbitrary i is the arbitrary of member i |
| `MockDataGenArb.UnionRule` | src/lib/mock-data-gen-arb.ts:72-75 | a union builds iff every member builds, and is then a choice among the members' arbitraries, in order; otherwise it throws as its first failing member does |
| `MockDataGenArb.TupleRule` | src/lib/mock-data-gen-arb.ts:103-108 | a tuple builds iff every member builds, and then draws one value per member, in order; otherwise it throws as its first failing member does |
| `MockDataGenArb.BuiltFieldsOk` | src/lib/mock-data-gen-arb.ts:79-82 | the record model is built iff every field's descriptor builds; otherwise the first failing field's error is thrown |
| `MockDataGenArb.BuiltFieldsModel` | src/lib/mock-data-gen-arb.ts:79-83 | the record model has exactly the struct's field names, each once, and each holds the arbitrary of its last declaration |
| `MockDataGenArb.StructRule` | src/lib/mock-data-gen-arb.ts:76-84 | a struct builds iff every field builds, and is then a record over exactly its fields, each drawn from its descriptor |
| `MockDataGenArb.OptionalRule` | src/lib/mock-data-gen-arb.ts:115 | `union([v, undefined])` draws from v or gives `undefined`, and fails as v does |
| `MockDataGenArb.PartialRule` | src/lib/mock-data-gen-arb.ts:109-119 | a partial struct is built as the struct of the same field names with each field made optional |
| `MockDataGenArb.ReadonlyRule` | src/lib/mock-data-gen-arb.ts:161-164 | a readonly descriptor draws as the descriptor it wraps |
| `MockDataGenArb.ReadonlyArrayRule` | src/lib/mock-data-gen-arb.ts:165-170 | a readonly array draws as the writable array of its item, which is an array of the item's arbitrary unless that array is named |
| `MockDataGenArb.DictionaryRule` | src/lib/mock-data-gen-arb.ts:85-99 | a dictionary builds iff domain and codomain build, draws a list of (key, value) pairs and folds it into an object; a failing domain's error wins |
| `MockDataGenArb.SeenFieldsSnoc` | src/lib/mock-data-gen-arb.ts:146 | `allProps` grows by exactly the member's field names |
| `MockDataGenArb.ClashCheck` | src/lib/mock-data-gen-arb.ts:139-145 | the `allProps.includes` scan finds a field iff the member shares a field name with an earlier member |
| `MockDataGenArb.BuiltMembersOk` | src/lib/mock-data-gen-arb.ts:124-148 | the loop completes iff every member is an object, shares no field name with earlier members and builds; `allProps` is then every field name seen; otherwise it throws at the first member rejected |
| `MockDataGenArb.BuiltMembersValues` | src/lib/mock-data-gen-arb.ts:147 | on success, `innerArbs` holds the members' arbitraries in order |
| `MockDataGenArb.AllAdmittedIff` | src/lib/mock-data-gen-arb.ts:126-148 | admitting each member after its predecessors is the same as: every member is an object that builds and no two members share a field name |
| `MockDataGenArb.IntersectionRule` | src/lib/mock-data-gen-arb.ts:120-157 | an intersection builds iff every member is an object that builds and the field-name sets are pairwise disjoint; it then draws one value per member and shallow-merges them; otherwise it throws at the first member rejected |
| `MockDataGenArb.IntersectionMerge` | src/lib/mock-data-gen-arb.ts:150-156 | for a built intersection, the merged value has every member's fields, each as that member drew it |
| `MockDataGen.IntBuiltin` | src/lib/mock-data-gen.ts:13 | the built-in `Int` generator returns a safe integer |
| `MockDataGen.DateBuiltin` | src/lib/mock-data-gen.ts:14-20 | the built-in `Date` generator draws a time stamp between its two bounds |
| `MockDataGen.MergedGensSpec` | src/lib/mock-data-gen.ts:56 | the merge keeps every name already there and adds the caller's; the caller's generator wins per name, and the others keep theirs |
| `MockDataGen.Defaults.constructor` | src/lib/mock-data-gen.ts:11-24 | the defaults start with seed 0 and the `Int`, `Date` and `UUID` generators |
| `MockDataGen.Defaults.Merge` | src/lib/mock-data-gen.ts:56 | the merge writes the caller's seed, when given, and the merged generators into the shared object |
| `MockDataGen.BuildNamedArbs` | src/lib/mock-data-gen.ts:31-34 | the loop gives each named generator an arbitrary that runs it on a PRNG seeded with a drawn natural number |
| `MockDataGen.NamedGenWins` | src/lib/mock-data-gen.ts:31-38 | through `gen`, a named generator overrides the descriptor's class and the engine's own `Int`/`Date`/`UUID` arbitraries |
| `MockDataGen.DoGenValue` | src/lib/mock-data-gen.ts:26-42 | `doGenValue` samples the descriptor's arbitrary with the seed, or throws the engine's error |
| `MockDataGen.DrawSeedOnlyPicks` | src/lib/mock-data-gen.ts:26-42 | the seed only picks the sample: success and the error do not depend on it, and every seed samples the same arbitrary |
| `MockDataGen.AttachedDrawIgnoresSeed` | src/lib/mock-data-gen-arb.ts:36-39 | a descriptor with an attached generator draws the generator's value on PRNG "0" for every seed |
| `MockDataGen.Stream.constructor` | src/lib/mock-data-gen.ts:52-55 | creating the generator object runs none of its body |
| `MockDataGen.Stream.Next` | src/lib/mock-data-gen.ts:52-62 | the first `next()` merges the settings, each later one first increments the shared seed; each yields the draw with the shared settings, a throw completes the generator, and a completed one is done |
| `MockDataGen.Gen` | src/lib/mock-data-gen.ts:52-62 | `gen` returns a new generator object that has not started |
| `MockDataGen.GenOne` | src/lib/mock-data-gen.ts:65-70 | `genOne` draws once, with the merged seed not yet incremented |
| `MockDataGen.Take` | src/lib/mock-data-gen.ts:58-61 | value i of a new stream is the sample with the starting seed plus i, all from one arbitrary; the shared seed ends at start + n - 1; a failing stream yields nothing |
| `MockDataGen.GenOneTwice` | src/lib/mock-data-gen.ts:65-70 | two `genOne` calls with the same seed return the same value or the same error |
| `MockDataGen.SharedSeedAcrossStreams` | src/lib/mock-data-gen.ts:11-61 | after one stream has yielded eleven values, a new stream without a seed starts at seed 10, not 0 |
| `RandomHelpers.PickIndex` | src/lib/random-helpers.ts:3 | the drawn index is within the list |
| `RandomHelpers.RandomPick` | src/lib/random-helpers.ts:3 | `randomPick` gives an element of the list, and `undefined` exactly for an empty list |
| `RandomHelpers.Picks` | src/lib/random-helpers.ts:8-10 | the loop pushes n picks, none for n <= 0 |
| `RandomHelpers.RandomString` | src/lib/random-helpers.ts:5-12 | the loop and the join compute the seeded string |
| `RandomHelpers.PicksAt` | src/lib/random-helpers.ts:8-10 | pick i is drawn with seed + i |
| `RandomHelpers.JoinDefined` | src/lib/random-helpers.ts:11 | joining defined picks keeps one character per pick, in order |
| `RandomHelpers.JoinUndefined` | src/lib/random-helpers.ts:11 | undefined picks join to the empty string |
| `RandomHelpers.RandomStringSpec` | src/lib/random-helpers.ts:5-12 | the string has n characters from the alphabet, character i picked with seed + i; it is empty for n <= 0 or an empty alphabet |
| `RandomHelpers.RandomStringShift` | src/lib/random-helpers.ts:8-10 | raising the seed by one shifts the string by one character |
| `RandomHelpers.RandomStringPrefix` | src/lib/random-helpers.ts:8-11 | with the same seed, a shorter string is a prefix of a longer one |
| `RandomHelpers.UuidShape` | src/lib/random-helpers.ts:14-16 | a UUID has 36 characters, hyphens at 8, 13, 18 and 23, version digit 4 at 14, the fixed prefix, and six hex digits last, digit i picked with seed + i |

## Left out

- fast-check itself: sampling, shrinking and the distributions of its
  arbitraries. An arbitrary is a description and `sample` is a parameter.
  The model does not capture fast-check's rejection of an empty `oneof`,
  e.g. for an empty union or keyof.
- The random-seed PRNG algorithm: a draw is a parameter known only to stay in
  its range.
- Floating point:
  - `fc.float()` and the sign flip of a float;
  - `r.random()`, which the built-in `UUID` generator passes as a float seed
    to `randomUUID`. The built-in `UUID` generator is modelled as a
    `SeededGen` without its output;
  - seeds that are not integers.
- `Date` construction and the local time zone. `DateBuiltin` takes the two
  bounds as parameters.
- io-ts validation (`.is`) and `instanceof` tests. A descriptor's class is
  its `Kind`, and the model does not check that a generated value conforms
  to its descriptor.
- lodash internals. `_.merge` is modelled on the two settings the engine
  reads. `_.cloneDeep` is modelled as a copy that drops registrations at
  every depth. Nested registrations are never observable through `doGenArb`,
  because the outermost attached generator wins.
- JavaScript property ordering for integer-like keys, names inherited from
  `Object.prototype` in the name lookup, and the string coercion of
  non-string dictionary keys. Objects are ordered lists of string keys.
- `JsObjects.Put`: the key `"__proto__"` is modelled as an ordinary own key.
  In JavaScript, `o["__proto__"] = v` on a plain object calls the prototype
  setter and creates no own key.
- `JsObjects.FromEntriesSpec`: a dictionary whose drawn keys include
  `"__proto__"` is stated to hold that key. The source's fold at
  src/lib/mock-data-gen-arb.ts:92-97 leaves it out of the object.
- `MockDataGenArb.StructRule`: a struct with a field named `"__proto__"` is
  stated to draw a record with that field. The source's record model at
  src/lib/mock-data-gen-arb.ts:79-82 gets no own key for it, so `fc.record`
  draws no such field.
- An intersection member that is not a JavaScript object. `Object.assign` of
  a non-object value is not modelled; the parts are objects.
- `assertDefined` in the named-arbitrary branch: the branch is taken only for
  a defined arbitrary, so the assertion cannot fail.
- `undefined` values in the caller's `namedTypeGens`. `_.merge` adds an
  `undefined` generator for a name the defaults lack, and drawing a descriptor
  of that name then throws. The model assumes every supplied generator is
  defined.
- `WithGenerator.Registry.WithGenerator`: requires that the descriptor carries
  no identity the registry has not handed out, because in JavaScript an
  identity cannot exist without its object.
- `MockDataGen.DateBuiltin`: states the range only when the lower bound is
  at most the upper one. The two bounds are fixed dates whose order the
  model does not compute.
- Concurrency, logging and packaging, and the test files.
