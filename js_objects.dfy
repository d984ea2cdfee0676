/**
  JavaScript objects with string keys, as the generation engine uses them: the
  record model of a struct, the dictionary built from drawn key/value pairs, and
  the shallow merge of an intersection's drawn parts.

  An object is the list of its own entries in insertion order. Assigning
  `o[k] = v` overwrites the entry of `k` in place or appends a new one, so a key
  appears at most once in any object built by assignment.
*/
module JsObjects {
  import opened Wrappers

  /** An object as its own entries, in insertion order. */
  type Obj<V> = seq<(string, V)>

  /** The own keys of an object (equally: the keys written by a list of pairs). */
  function KeysOf<V>(o: seq<(string, V)>): set<string> {
    set i | 0 <= i < |o| :: o[i].0
  }

  /** Reading `o[k]`: the value of the entry with key k, `undefined` when there is none. */
  function Get<V>(o: Obj<V>, k: string): (r: Option<V>)
    ensures r.Some? <==> k in KeysOf(o)
  {
    if o == [] then None
    else if o[|o| - 1].0 == k then Some(o[|o| - 1].1)
    else
      KeysOfSnoc(o[..|o| - 1], o[|o| - 1]);
      Get(o[..|o| - 1], k)
  }

  /** Every key occurs in one entry only. */
  ghost predicate UniqueKeys<V>(o: Obj<V>) {
    forall i, j :: 0 <= i < j < |o| ==> o[i].0 != o[j].0
  }

  /** Pair i of kvs is the last one written with key k. */
  ghost predicate IsLastWrite<V>(kvs: seq<(string, V)>, i: int, k: string) {
    && 0 <= i < |kvs|
    && kvs[i].0 == k
    && forall j :: i < j < |kvs| ==> kvs[j].0 != k
  }

  lemma KeysOfSnoc<V>(o: seq<(string, V)>, e: (string, V))
    ensures o == (o + [e])[..|o|]
    ensures KeysOf(o + [e]) == KeysOf(o) + {e.0}
  {
    var s := o + [e];
    assert s[|o|].0 == e.0;
    forall k | k in KeysOf(o) ensures k in KeysOf(s) {
      var i :| 0 <= i < |o| && o[i].0 == k;
      assert s[i].0 == k;
    }
  }

  /**
    The assignment `o[k] = v`: afterwards `o[k]` is v, every other key reads as
    before, existing entries keep their places and a new key goes last.
  */
  function Put<V>(o: Obj<V>, k: string, v: V): (r: Obj<V>)
    ensures KeysOf(r) == KeysOf(o) + {k}
    ensures Get(r, k) == Some(v)
    ensures forall k' :: k' != k ==> Get(r, k') == Get(o, k')
    ensures |r| == if k in KeysOf(o) then |o| else |o| + 1
  {
    if k !in KeysOf(o) then
      GetSnoc(o, (k, v));
      o + [(k, v)]
    else
      var init, last := o[..|o| - 1], o[|o| - 1];
      assert o == init + [last];
      GetSnoc(init, last);
      if last.0 == k then
        GetSnoc(init, (k, v));
        init + [(k, v)]
      else
        var r' := Put(init, k, v);
        GetSnoc(r', last);
        r' + [last]
  }

  /** Reading an object with one more entry at the end. */
  lemma GetSnoc<V>(o: Obj<V>, e: (string, V))
    ensures KeysOf(o + [e]) == KeysOf(o) + {e.0}
    ensures forall k :: Get(o + [e], k) == if k == e.0 then Some(e.1) else Get(o, k)
  {
    KeysOfSnoc(o, e);
  }

  /** Put keeps every existing entry in its place and appends a new key last, so keys stay unique. */
  lemma {:induction false} PutKeepsOrder<V>(o: Obj<V>, k: string, v: V)
    ensures forall i :: 0 <= i < |o| ==> Put(o, k, v)[i].0 == o[i].0
    ensures k !in KeysOf(o) ==> Put(o, k, v)[|o|] == (k, v)
    ensures UniqueKeys(o) ==> UniqueKeys(Put(o, k, v))
  {
    var r := Put(o, k, v);
    if k in KeysOf(o) {
      var init, last := o[..|o| - 1], o[|o| - 1];
      assert o == init + [last];
      if last.0 == k {
        assert r == init + [(k, v)];
      } else {
        var r' := Put(init, k, v);
        assert r == r' + [last];
        PutKeepsOrder(init, k, v);
        forall i | 0 <= i < |o| ensures r[i].0 == o[i].0 {
          if i < |init| {
            assert r[i] == r'[i] && o[i] == init[i];
          }
        }
      }
    } else {
      assert r == o + [(k, v)];
      if UniqueKeys(o) {
        forall i, j | 0 <= i < j < |r| ensures r[i].0 != r[j].0 {
          if j == |o| {
            assert o[i].0 in KeysOf(o);
          }
        }
      }
    }
  }

  /**
    Writes the pairs of src onto target in order, one `target[k] = v` each; this
    is also what `Object.assign(target, src)` does with the own entries of src.
  */
  function Assign<V>(target: Obj<V>, src: seq<(string, V)>): (r: Obj<V>)
    ensures KeysOf(r) == KeysOf(target) + KeysOf(src)
  {
    if src == [] then target
    else
      var init, last := src[..|src| - 1], src[|src| - 1];
      KeysOfSnoc(init, last);
      assert src == init + [last];
      var prev := Assign(target, init);
      assert KeysOf(prev) == KeysOf(target) + KeysOf(init);
      Put(prev, last.0, last.1)
  }

  /** Assigning onto an object with unique keys leaves its keys unique. */
  lemma {:induction false} AssignKeepsUnique<V>(target: Obj<V>, src: seq<(string, V)>)
    requires UniqueKeys(target)
    ensures UniqueKeys(Assign(target, src))
  {
    if src != [] {
      var init, last := src[..|src| - 1], src[|src| - 1];
      AssignKeepsUnique(target, init);
      PutKeepsOrder(Assign(target, init), last.0, last.1);
    }
  }

  /** After Assign, a key of src reads as the last pair written with it; any other key as before. */
  lemma {:induction false} AssignGet<V>(target: Obj<V>, src: seq<(string, V)>, k: string)
    ensures k !in KeysOf(src) ==> Get(Assign(target, src), k) == Get(target, k)
    ensures forall i :: IsLastWrite(src, i, k) ==> Get(Assign(target, src), k) == Some(src[i].1)
  {
    if src != [] {
      var init, last := src[..|src| - 1], src[|src| - 1];
      KeysOfSnoc(init, last);
      assert src == init + [last];
      AssignGet(target, init, k);
      forall i | IsLastWrite(src, i, k)
        ensures Get(Assign(target, src), k) == Some(src[i].1)
      {
        if i < |src| - 1 {
          assert IsLastWrite(init, i, k);
        }
      }
    }
  }

  /** After Assign, a key of src reads as src itself reads it. */
  lemma {:induction false} AssignGetOwn<V>(target: Obj<V>, src: Obj<V>, k: string)
    requires k in KeysOf(src)
    ensures Get(Assign(target, src), k) == Get(src, k)
  {
    var init, last := src[..|src| - 1], src[|src| - 1];
    KeysOfSnoc(init, last);
    assert src == init + [last];
    if last.0 != k {
      AssignGetOwn(target, init, k);
    }
  }

  /** The object the dictionary mapper returns for the drawn pairs kvs. */
  function FromEntries<V>(kvs: seq<(string, V)>): Obj<V> {
    Assign([], kvs)
  }

  /**
    Dictionary semantics: the keys are exactly the drawn keys, each held once,
    and a key drawn more than once holds the value of its last pair.
  */
  lemma FromEntriesSpec<V>(kvs: seq<(string, V)>, k: string)
    ensures KeysOf(FromEntries(kvs)) == KeysOf(kvs)
    ensures UniqueKeys(FromEntries(kvs))
    ensures k !in KeysOf(kvs) ==> Get(FromEntries(kvs), k) == None
    ensures forall i :: IsLastWrite(kvs, i, k) ==> Get(FromEntries(kvs), k) == Some(kvs[i].1)
  {
    AssignGet([], kvs, k);
    AssignKeepsUnique([], kvs);
  }

  /**
    The dictionary mapper (`for (const [k, v] of kvs) ret[k] = v`): folds the
    drawn pairs, in order, into a fresh object.
  */
  method CollectEntries<V>(kvs: seq<(string, V)>) returns (ret: Obj<V>)
    ensures ret == FromEntries(kvs)
  {
    ret := [];
    for i := 0 to |kvs|
      invariant ret == Assign([], kvs[..i])
    {
      assert kvs[..i + 1][..i] == kvs[..i];
      ret := Put(ret, kvs[i].0, kvs[i].1);
    }
    assert kvs[..|kvs|] == kvs;
  }

  /** The shallow merge of objects, left to right, into a fresh object. */
  function MergeAll<V>(vals: seq<Obj<V>>): Obj<V> {
    if vals == [] then [] else Assign(MergeAll(vals[..|vals| - 1]), vals[|vals| - 1])
  }

  /** Every key of every object in vals. */
  ghost function UnionOfKeys<V>(vals: seq<Obj<V>>): set<string> {
    set i, k | 0 <= i < |vals| && k in KeysOf(vals[i]) :: k
  }

  /**
    The merge holds exactly the union of the parts' keys, and a key reads as in
    the last part that has it.
  */
  lemma {:induction false} MergeAllSpec<V>(vals: seq<Obj<V>>, i: int, k: string)
    ensures KeysOf(MergeAll(vals)) == UnionOfKeys(vals)
    ensures 0 <= i < |vals| && k in KeysOf(vals[i]) && (forall j :: i < j < |vals| ==> k !in KeysOf(vals[j]))
      ==> Get(MergeAll(vals), k) == Get(vals[i], k)
  {
    if vals != [] {
      var init, last := vals[..|vals| - 1], vals[|vals| - 1];
      MergeAllSpec(init, i, k);
      forall x | x in UnionOfKeys(vals) ensures x in UnionOfKeys(init) + KeysOf(last) {
        var j :| 0 <= j < |vals| && x in KeysOf(vals[j]);
        if j < |vals| - 1 {
          assert init[j] == vals[j];
        }
      }
      forall x | x in UnionOfKeys(init) ensures x in UnionOfKeys(vals) {
        var j :| 0 <= j < |init| && x in KeysOf(init[j]);
        assert vals[j] == init[j];
      }
      if 0 <= i < |vals| && k in KeysOf(vals[i]) && (forall j :: i < j < |vals| ==> k !in KeysOf(vals[j])) {
        if i == |vals| - 1 {
          AssignGetOwn(MergeAll(init), last, k);
        } else {
          AssignGet(MergeAll(init), last, k);
          assert init[i] == vals[i];
          forall j | i < j < |init| ensures k !in KeysOf(init[j]) {
            assert init[j] == vals[j];
          }
        }
      }
    }
  }

  /**
    The intersection merge when the parts have disjoint keys: the result holds
    the union of their keys and each key reads as in the one part that has it.
  */
  lemma MergeDisjoint<V>(vals: seq<Obj<V>>)
    requires forall i, j :: 0 <= i < j < |vals| ==> KeysOf(vals[i]) !! KeysOf(vals[j])
    ensures KeysOf(MergeAll(vals)) == UnionOfKeys(vals)
    ensures forall i, k :: 0 <= i < |vals| && k in KeysOf(vals[i]) ==> Get(MergeAll(vals), k) == Get(vals[i], k)
  {
    MergeAllSpec(vals, 0, "");
    forall i, k | 0 <= i < |vals| && k in KeysOf(vals[i])
      ensures Get(MergeAll(vals), k) == Get(vals[i], k)
    {
      MergeAllSpec(vals, i, k);
    }
  }

  /**
    The intersection mapper (`for (const innerVal of innerVals)
    Object.assign(ret, innerVal)`): merges the drawn parts left to right into a
    fresh object.
  */
  method MergeObjects<V>(innerVals: seq<Obj<V>>) returns (ret: Obj<V>)
    ensures ret == MergeAll(innerVals)
  {
    ret := [];
    for i := 0 to |innerVals|
      invariant ret == MergeAll(innerVals[..i])
    {
      assert innerVals[..i + 1][..i] == innerVals[..i];
      ret := Assign(ret, innerVals[i]);
    }
    assert innerVals[..|innerVals|] == innerVals;
  }
}
