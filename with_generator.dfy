/**
  Per-instance generator attachment (`withGenerator` / `getGenerator`). The
  source keeps the generator in a metadata table keyed by object identity; a
  descriptor is registered only by being the fresh deep copy that
  `withGenerator` returns, so the input descriptor, and every other holder of
  it, is left as it was.
*/
module WithGenerator {
  import opened Wrappers
  import opened RandomSeed
  import opened Descriptors

  /** The metadata table: the generator recorded for each registered identity. */
  type Table = map<Id, SeededGen>

  /** `getGenerator(t)` read against a table: `undefined` for an unregistered descriptor. */
  function Attached(table: Table, t: Type): Option<SeededGen> {
    if t.attachment.Some? && t.attachment.value in table then Some(table[t.attachment.value]) else None
  }

  /** "can not use withGenerator twice" */
  datatype AttachError = UsedTwice

  /** A deep copy of Erase(Erase(t)) is a deep copy of t. */
  lemma {:induction false} EraseTwice(t: Type)
    ensures Erase(Erase(t)) == Erase(t)
  {
    EraseKindTwice(t.kind);
  }

  lemma {:induction false} EraseKindTwice(k: Kind)
    ensures EraseKind(EraseKind(k)) == EraseKind(k)
  {
    match k
    case UnionType(ts) =>
      assert EraseKind(k) == UnionType(EraseSeq(ts));
      EraseSeqTwice(ts);
    case TupleType(ts) =>
      assert EraseKind(k) == TupleType(EraseSeq(ts));
      EraseSeqTwice(ts);
    case IntersectionType(ts) =>
      assert EraseKind(k) == IntersectionType(EraseSeq(ts));
      EraseSeqTwice(ts);
    case InterfaceType(ps) =>
      assert EraseKind(k) == InterfaceType(EraseProps(ps));
      ErasePropsTwice(ps);
    case PartialType(ps) =>
      assert EraseKind(k) == PartialType(EraseProps(ps));
      ErasePropsTwice(ps);
    case DictionaryType(d, c) =>
      assert EraseKind(k) == DictionaryType(Erase(d), Erase(c));
      EraseTwice(d);
      EraseTwice(c);
    case ArrayType(e) =>
      assert EraseKind(k) == ArrayType(Erase(e));
      EraseTwice(e);
    case ReadonlyArrayType(e) =>
      assert EraseKind(k) == ReadonlyArrayType(Erase(e));
      EraseTwice(e);
    case ReadonlyType(e) =>
      assert EraseKind(k) == ReadonlyType(Erase(e));
      EraseTwice(e);
    case _ =>
      assert EraseKind(k) == k;
  }

  lemma {:induction false} EraseSeqTwice(ts: seq<Type>)
    ensures EraseSeq(EraseSeq(ts)) == EraseSeq(ts)
  {
    if ts != [] {
      var e := EraseSeq(ts);
      EraseSeqTwice(ts[..|ts| - 1]);
      EraseTwice(ts[|ts| - 1]);
      assert e[..|e| - 1] == EraseSeq(ts[..|ts| - 1]);
    }
  }

  lemma {:induction false} ErasePropsTwice(ps: seq<(string, Type)>)
    ensures EraseProps(EraseProps(ps)) == EraseProps(ps)
  {
    if ps != [] {
      var e := EraseProps(ps);
      var last := ps[|ps| - 1];
      assert last in ps;
      assert last.1 < last;
      ErasePropsTwice(ps[..|ps| - 1]);
      EraseTwice(last.1);
      assert e[..|e| - 1] == EraseProps(ps[..|ps| - 1]);
    }
  }

  /**
    `cloneDeep(t)` registered under id. The copy equals t in everything but
    attachments: it carries id, and every descriptor nested in it is a new,
    unregistered object (the table is keyed by identity, which copying does not
    carry over).
  */
  function Clone(t: Type, id: Id): (r: Type)
    ensures r.attachment == Some(id)
    ensures Erase(r) == Erase(t)
    ensures Unattached(r.(attachment := None))
  {
    EraseTwice(t);
    Erase(t).(attachment := Some(id))
  }

  /** The process-wide metadata table with its supply of fresh identities. */
  class Registry {
    var table: Table
    var next: Id

    /** Exactly the identities handed out so far are registered. */
    ghost predicate Valid()
      reads this
    {
      forall id: Id :: id in table <==> id < next
    }

    /** The descriptor carries no identity this registry has not handed out. */
    ghost predicate Issued(t: Type)
      reads this
    {
      t.attachment.Some? ==> t.attachment.value < next
    }

    constructor ()
      ensures Valid()
      ensures table == map[] && next == 0
    {
      table := map[];
      next := 0;
    }

    /**
      `getGenerator(t)`: `undefined` for a descriptor `withGenerator` did not
      return, such as any descriptor nested in a registered one.
    */
    function GetGenerator(t: Type): (r: Option<SeededGen>)
      reads this
      ensures t.attachment.None? ==> r.None?
      ensures r.Some? ==> r.value in table.Values
    {
      Attached(table, t)
    }

    /**
      `withGenerator(t, g)`: refuses a descriptor that already has a generator;
      otherwise returns a registered deep copy of t that carries g, and leaves
      t and every earlier registration as they were.
    */
    method WithGenerator(t: Type, g: SeededGen) returns (r: Result<Type, AttachError>)
      requires Valid() && Issued(t)
      modifies this
      ensures Valid()
      ensures r.Err? <==> old(GetGenerator(t)).Some?
      ensures r.Err? ==> r.error == UsedTwice && table == old(table) && next == old(next)
      ensures r.Ok? ==> r.value == Clone(t, old(next)) && Issued(r.value)
      ensures r.Ok? ==> table == old(table)[old(next) := g] && next == old(next) + 1
      ensures r.Ok? ==> GetGenerator(r.value) == Some(g)
      ensures GetGenerator(t) == old(GetGenerator(t))
      ensures forall u :: old(GetGenerator(u)).Some? ==> GetGenerator(u) == old(GetGenerator(u))
    {
      if GetGenerator(t).Some? {
        return Err(UsedTwice);
      }
      var id := next;
      r := Ok(Clone(t, id));
      table := table[id := g];
      next := next + 1;
    }
  }

  /**
    Two attachments to one unregistered descriptor give two distinct
    descriptors, each carrying its own generator, while the original stays
    unregistered; attaching again to either result fails.
  */
  method AttachToSameOriginal(reg: Registry, t: Type, g1: SeededGen, g2: SeededGen)
    returns (t1: Type, t2: Type, again: Result<Type, AttachError>)
    requires reg.Valid() && reg.Issued(t) && reg.GetGenerator(t) == None
    modifies reg
    ensures t1 != t2 && Erase(t1) == Erase(t) && Erase(t2) == Erase(t)
    ensures reg.GetGenerator(t1) == Some(g1) && reg.GetGenerator(t2) == Some(g2)
    ensures reg.GetGenerator(t) == None
    ensures again == Err(UsedTwice)
  {
    var r1 := reg.WithGenerator(t, g1);
    t1 := r1.value;
    var r2 := reg.WithGenerator(t, g2);
    t2 := r2.value;
    again := reg.WithGenerator(t1, g2);
  }
}
