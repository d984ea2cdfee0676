/**
  The io-ts type descriptors the engine walks. A descriptor is read only: its
  `name`, its class, and the parts of that class the engine looks at. Its
  `attachment` is the identity under which `withGenerator` registered it in the
  metadata table, if it did.
*/
module Descriptors {
  import opened Wrappers
  import opened JsObjects

  /** The identity of a descriptor object in the metadata table. */
  type Id = nat

  /** The values a literal descriptor or a constant arbitrary can hold. */
  datatype Lit = Undefined | Null | LitString(s: string) | LitNumber(n: int) | LitBool(b: bool)

  /** An io-ts descriptor object. */
  datatype Type = Type(name: string, attachment: Option<Id>, kind: Kind)

  /**
    The io-ts class of a descriptor with the parts the engine reads. Struct and
    partial fields are the entries of the `props` object, in order.
    RefinementType stands for every class without a structural rule: branded and
    refined types and hand-written `t.Type` instances such as `Date` or `UUID`.
  */
  datatype Kind =
    | StringType
    | NumberType
    | BooleanType
    | BigIntType
    | NullType
    | UndefinedType
    | LiteralType(value: Lit)
    | KeyofType(keys: seq<string>)
    | UnionType(types: seq<Type>)
    | InterfaceType(props: seq<(string, Type)>)
    | PartialType(props: seq<(string, Type)>)
    | DictionaryType(domain: Type, codomain: Type)
    | TupleType(types: seq<Type>)
    | ArrayType(item: Type)
    | ReadonlyArrayType(item: Type)
    | ReadonlyType(inner: Type)
    | IntersectionType(types: seq<Type>)
    | AnyType
    | UnknownType
    | RefinementType

  /** The descriptor has an own `props` field map (a struct or a partial struct). */
  predicate HasProps(t: Type) {
    t.kind.InterfaceType? || t.kind.PartialType?
  }

  /** `Object.keys(t.props)`: one entry per declared field, listing exactly the struct's field names. */
  function PropKeys(t: Type): (keys: seq<string>)
    requires HasProps(t)
    ensures |keys| == |t.kind.props|
    ensures forall k :: k in keys <==> k in KeysOf(t.kind.props)
  {
    var keys := seq(|t.kind.props|, i requires 0 <= i < |t.kind.props| => t.kind.props[i].0);
    assert forall k :: k in KeysOf(t.kind.props) ==> k in keys by {
      forall k | k in KeysOf(t.kind.props) ensures k in keys {
        var i :| 0 <= i < |t.kind.props| && t.kind.props[i].0 == k;
        assert keys[i] == k;
      }
    }
    keys
  }

  // Descriptors built by the engine itself, named as io-ts names them: only
  // the name map ever looks at these names.

  /** `t.undefined`, a shared io-ts constant that is never registered. */
  const UndefinedDescriptor: Type := Type("undefined", None, UndefinedType)

  /** The strings joined with sep in between. */
  function Join(parts: seq<string>, sep: string): string {
    if parts == [] then ""
    else if |parts| == 1 then parts[0]
    else Join(parts[..|parts| - 1], sep) + sep + parts[|parts| - 1]
  }

  /** `t.union([v, t.undefined])`, a fresh and unregistered descriptor. */
  function Optional(v: Type): Type {
    Type("(" + Join([v.name, UndefinedDescriptor.name], " | ") + ")", None, UnionType([v, UndefinedDescriptor]))
  }

  /** `t.type(props)`, a fresh and unregistered descriptor. */
  function Interface(props: seq<(string, Type)>): Type {
    var fields := seq(|props|, i requires 0 <= i < |props| => props[i].0 + ": " + props[i].1.name);
    Type("{ " + Join(fields, ", ") + " }", None, InterfaceType(props))
  }

  /** `t.array(item)`, a fresh and unregistered descriptor. */
  function WritableArray(item: Type): Type {
    Type("Array<" + item.name + ">", None, ArrayType(item))
  }

  // Size: the termination measure of the walk. A partial struct and a readonly
  // array count more than the descriptors they are rewritten into.

  function Size(t: Type): (n: nat)
    ensures n >= 1
  {
    match t.kind
    case UnionType(ts) => 1 + SizeSeq(ts)
    case TupleType(ts) => 1 + SizeSeq(ts)
    case IntersectionType(ts) => 1 + SizeSeq(ts)
    case InterfaceType(ps) => 1 + SizeProps(ps)
    case PartialType(ps) => 2 + SizeProps(ps) + 2 * |ps|
    case DictionaryType(d, c) => 1 + Size(d) + Size(c)
    case ArrayType(e) => 1 + Size(e)
    case ReadonlyArrayType(e) => 2 + Size(e)
    case ReadonlyType(e) => 1 + Size(e)
    case _ => 1
  }

  lemma SizeInterface(props: seq<(string, Type)>)
    ensures Size(Interface(props)) == 1 + SizeProps(props)
  {
    assert Interface(props).kind == InterfaceType(props);
  }

  function SizeSeq(ts: seq<Type>): nat {
    if ts == [] then 0 else SizeSeq(ts[..|ts| - 1]) + Size(ts[|ts| - 1])
  }

  function SizeProps(ps: seq<(string, Type)>): nat {
    if ps == [] then 0
    else
      var last := ps[|ps| - 1];
      assert last in ps;
      assert last.1 < last;
      SizeProps(ps[..|ps| - 1]) + Size(last.1)
  }

  lemma {:induction false} SizeSeqBound(ts: seq<Type>, i: int)
    requires 0 <= i < |ts|
    ensures Size(ts[i]) <= SizeSeq(ts) - SizeSeq(ts[..i])
    ensures SizeSeq(ts[..i]) < SizeSeq(ts)
  {
    if i < |ts| - 1 {
      var init := ts[..|ts| - 1];
      SizeSeqBound(init, i);
      assert init[..i] == ts[..i];
    }
  }

  lemma {:induction false} SizePropsBound(ps: seq<(string, Type)>, i: int)
    requires 0 <= i < |ps|
    ensures Size(ps[i].1) <= SizeProps(ps) - SizeProps(ps[..i])
    ensures SizeProps(ps[..i]) < SizeProps(ps)
  {
    if i < |ps| - 1 {
      var init := ps[..|ps| - 1];
      SizePropsBound(init, i);
      assert init[..i] == ps[..i];
    }
  }

  lemma SizePropsSnoc(ps: seq<(string, Type)>, e: (string, Type))
    ensures SizeProps(ps + [e]) == SizeProps(ps) + Size(e.1)
  {
    assert (ps + [e])[..|ps|] == ps;
  }

  /** Assigning a field adds at most the size of its descriptor. */
  lemma {:induction false} SizePut(o: Obj<Type>, k: string, v: Type)
    ensures SizeProps(Put(o, k, v)) <= SizeProps(o) + Size(v)
  {
    if k !in KeysOf(o) {
      SizePropsSnoc(o, (k, v));
    } else {
      var init, last := o[..|o| - 1], o[|o| - 1];
      KeysOfSnoc(init, last);
      assert o == init + [last];
      SizePropsSnoc(init, last);
      if last.0 == k {
        SizePropsSnoc(init, (k, v));
      } else {
        SizePut(init, k, v);
        SizePropsSnoc(Put(init, k, v), last);
      }
    }
  }

  lemma {:induction false} SizeAssign(target: Obj<Type>, src: seq<(string, Type)>)
    ensures SizeProps(Assign(target, src)) <= SizeProps(target) + SizeProps(src)
  {
    if src != [] {
      var init, last := src[..|src| - 1], src[|src| - 1];
      SizeAssign(target, init);
      SizePut(Assign(target, init), last.0, last.1);
    }
  }

  // Erasing attachments: what a deep copy keeps of a descriptor.

  /** Every descriptor in t, t included, is unregistered. */
  ghost predicate Unattached(t: Type) {
    t.attachment.None? && UnattachedKind(t.kind)
  }

  /** Every descriptor nested in a class's parts is unregistered. */
  ghost predicate UnattachedKind(k: Kind) {
    match k
    case UnionType(ts) => UnattachedSeq(ts)
    case TupleType(ts) => UnattachedSeq(ts)
    case IntersectionType(ts) => UnattachedSeq(ts)
    case InterfaceType(ps) => UnattachedProps(ps)
    case PartialType(ps) => UnattachedProps(ps)
    case DictionaryType(d, c) => Unattached(d) && Unattached(c)
    case ArrayType(e) => Unattached(e)
    case ReadonlyArrayType(e) => Unattached(e)
    case ReadonlyType(e) => Unattached(e)
    case _ => true
  }

  ghost predicate UnattachedSeq(ts: seq<Type>) {
    ts != [] ==> UnattachedSeq(ts[..|ts| - 1]) && Unattached(ts[|ts| - 1])
  }

  ghost predicate UnattachedProps(ps: seq<(string, Type)>) {
    ps != [] ==>
      var last := ps[|ps| - 1];
      assert last in ps;
      assert last.1 < last;
      UnattachedProps(ps[..|ps| - 1]) && Unattached(last.1)
  }

  /**
    The descriptor with every attachment dropped, at every depth; all else is
    kept: the same names, classes, fields and order.
  */
  function Erase(t: Type): (r: Type)
    ensures Unattached(r)
    ensures r.name == t.name && r.kind == EraseKind(t.kind)
  {
    Type(t.name, None, EraseKind(t.kind))
  }

  /** The class with every attachment in its parts dropped. */
  function EraseKind(k: Kind): (r: Kind)
    ensures UnattachedKind(r)
  {
    match k
    case UnionType(ts) => UnionType(EraseSeq(ts))
    case TupleType(ts) => TupleType(EraseSeq(ts))
    case IntersectionType(ts) => IntersectionType(EraseSeq(ts))
    case InterfaceType(ps) => InterfaceType(EraseProps(ps))
    case PartialType(ps) => PartialType(EraseProps(ps))
    case DictionaryType(d, c) => DictionaryType(Erase(d), Erase(c))
    case ArrayType(e) => ArrayType(Erase(e))
    case ReadonlyArrayType(e) => ReadonlyArrayType(Erase(e))
    case ReadonlyType(e) => ReadonlyType(Erase(e))
    case other => other
  }

  function EraseSeq(ts: seq<Type>): (r: seq<Type>)
    ensures |r| == |ts|
    ensures UnattachedSeq(r)
  {
    if ts == [] then []
    else
      var r := EraseSeq(ts[..|ts| - 1]) + [Erase(ts[|ts| - 1])];
      assert r[..|ts| - 1] == EraseSeq(ts[..|ts| - 1]);
      r
  }

  function EraseProps(ps: seq<(string, Type)>): (r: seq<(string, Type)>)
    ensures |r| == |ps|
    ensures forall i :: 0 <= i < |ps| ==> r[i].0 == ps[i].0
    ensures UnattachedProps(r)
  {
    if ps == [] then []
    else
      var last := ps[|ps| - 1];
      assert last in ps;
      assert last.1 < last;
      var r := EraseProps(ps[..|ps| - 1]) + [(last.0, Erase(last.1))];
      assert r[..|ps| - 1] == EraseProps(ps[..|ps| - 1]);
      r
  }
}
