/**
  Seeded string helpers: picking an element, building a string of picks at
  consecutive seeds, and the UUID-shaped string the `UUID` named arbitrary
  maps drawn natural numbers to.
*/
module RandomHelpers {
  import opened Wrappers
  import opened RandomSeed

  /** The index `r.create(`${seed}`).intBetween(0, len - 1)` picks. */
  function PickIndex(draw: IntBetween, seed: int, len: int): (i: int)
    requires len > 0
    ensures 0 <= i < len
  {
    draw(seed, 0, len - 1)
  }

  /** `randomPick(seed, xs)`: the element at the drawn index; `undefined` when xs is empty. */
  function RandomPick<T>(draw: IntBetween, seed: int, xs: seq<T>): (r: Option<T>)
    ensures r.Some? <==> |xs| > 0
    ensures r.Some? ==> r.value in xs
  {
    if |xs| == 0 then None else Some(xs[PickIndex(draw, seed, |xs|)])
  }

  /** The array `randomString` pushes: the picks at seeds seed, seed + 1, ..., seed + n - 1. */
  function Picks<T>(draw: IntBetween, xs: seq<T>, n: int, seed: int): (ps: seq<Option<T>>)
    ensures |ps| == if n <= 0 then 0 else n
    decreases n
  {
    if n <= 0 then [] else Picks(draw, xs, n - 1, seed) + [RandomPick(draw, seed + n - 1, xs)]
  }

  /** `ps.join('')`: an `undefined` element joins as the empty string. */
  function JoinPicks(ps: seq<Option<char>>): string {
    if ps == [] then ""
    else JoinPicks(ps[..|ps| - 1]) + (match ps[|ps| - 1] case Some(c) => [c] case None => "")
  }

  /** `randomString(alphabet, n)(seed)`. */
  function RandomStringOf(draw: IntBetween, alphabet: string, n: int, seed: int): string {
    JoinPicks(Picks(draw, alphabet, n, seed))
  }

  /** The loop of `randomString`: one pick per position, at seed + i, then joined. */
  method RandomString(draw: IntBetween, alphabet: string, n: int, seed: int) returns (s: string)
    ensures s == RandomStringOf(draw, alphabet, n, seed)
  {
    var ret: seq<Option<char>> := [];
    var chars := alphabet;
    var i := 0;
    while i < n
      invariant 0 <= i && (n >= 0 ==> i <= n)
      invariant n <= 0 ==> i == 0 && ret == []
      invariant ret == Picks(draw, chars, i, seed)
    {
      ret := ret + [RandomPick(draw, seed + i, chars)];
      i := i + 1;
    }
    s := JoinPicks(ret);
  }

  /** Pick i of the array is the pick at seed + i. */
  lemma {:induction false} PicksAt<T>(draw: IntBetween, xs: seq<T>, n: int, seed: int, i: int)
    requires 0 <= i < n
    ensures Picks(draw, xs, n, seed)[i] == RandomPick(draw, seed + i, xs)
  {
    if i < n - 1 {
      PicksAt(draw, xs, n - 1, seed, i);
    }
  }

  /** Picks that are all defined join to a string of the same length, character i being pick i. */
  lemma {:induction false} JoinDefined(ps: seq<Option<char>>)
    requires forall i :: 0 <= i < |ps| ==> ps[i].Some?
    ensures |JoinPicks(ps)| == |ps|
    ensures forall i :: 0 <= i < |ps| ==> JoinPicks(ps)[i] == ps[i].value
  {
    if ps != [] {
      JoinDefined(ps[..|ps| - 1]);
    }
  }

  /** Picks that are all undefined join to the empty string. */
  lemma {:induction false} JoinUndefined(ps: seq<Option<char>>)
    requires forall i :: 0 <= i < |ps| ==> ps[i].None?
    ensures JoinPicks(ps) == ""
  {
    if ps != [] {
      JoinUndefined(ps[..|ps| - 1]);
    }
  }

  /**
    Character i of `randomString(alphabet, n)(seed)` is the pick at seed + i,
    so the string has length n (none for n <= 0) and uses only the alphabet;
    an empty alphabet gives the empty string.
  */
  lemma RandomStringSpec(draw: IntBetween, alphabet: string, n: int, seed: int)
    ensures |RandomStringOf(draw, alphabet, n, seed)| == if n <= 0 || |alphabet| == 0 then 0 else n
    ensures |alphabet| > 0 ==> forall i :: 0 <= i < n ==>
      Some(RandomStringOf(draw, alphabet, n, seed)[i]) == RandomPick(draw, seed + i, alphabet)
    ensures forall i :: 0 <= i < |RandomStringOf(draw, alphabet, n, seed)| ==>
      RandomStringOf(draw, alphabet, n, seed)[i] in alphabet
  {
    var ps := Picks(draw, alphabet, n, seed);
    forall i | 0 <= i < |ps| ensures ps[i] == RandomPick(draw, seed + i, alphabet) {
      PicksAt(draw, alphabet, n, seed, i);
    }
    if |alphabet| > 0 {
      JoinDefined(ps);
    } else {
      JoinUndefined(ps);
    }
  }

  /** Shifting the seed by one shifts the string by one: character i + 1 for seed s is character i for seed s + 1. */
  lemma RandomStringShift(draw: IntBetween, alphabet: string, n: int, seed: int, i: int)
    requires |alphabet| > 0 && 0 <= i < n - 1
    ensures |RandomStringOf(draw, alphabet, n, seed)| == n && |RandomStringOf(draw, alphabet, n, seed + 1)| == n
    ensures RandomStringOf(draw, alphabet, n, seed)[i + 1] == RandomStringOf(draw, alphabet, n, seed + 1)[i]
  {
    RandomStringSpec(draw, alphabet, n, seed);
    RandomStringSpec(draw, alphabet, n, seed + 1);
    assert seed + (i + 1) == (seed + 1) + i;
  }

  /** A shorter string with the same seed is a prefix of a longer one. */
  lemma RandomStringPrefix(draw: IntBetween, alphabet: string, n: int, m: int, seed: int)
    requires n <= m
    ensures RandomStringOf(draw, alphabet, n, seed) <= RandomStringOf(draw, alphabet, m, seed)
  {
    var short, long := RandomStringOf(draw, alphabet, n, seed), RandomStringOf(draw, alphabet, m, seed);
    RandomStringSpec(draw, alphabet, n, seed);
    RandomStringSpec(draw, alphabet, m, seed);
    if |alphabet| > 0 && n > 0 {
      assert forall i :: 0 <= i < |short| ==> short[i] == long[i] by {
        forall i | 0 <= i < |short| ensures short[i] == long[i] {
          assert Some(short[i]) == Some(long[i]);
        }
      }
    }
  }

  /** The lowercase hexadecimal digits. */
  const HEX: string := "0123456789abcdef"

  /** The fixed first 30 characters of every generated UUID. */
  const UUID_PREFIX: string := "ffffffff-ffff-4fff-ffff-ffffff"

  /** `randomUUID(seed)`; the post-increment `seed++` passes the seed unchanged. */
  function RandomUuid(draw: IntBetween, seed: int): string {
    UUID_PREFIX + RandomStringOf(draw, HEX, 6, seed)
  }

  /**
    A generated UUID has 36 characters, hyphens at 8, 13, 18 and 23, the
    version digit '4' at 14, and six hexadecimal digits last, digit i being the
    pick at seed + i.
  */
  lemma UuidShape(draw: IntBetween, seed: int)
    ensures |RandomUuid(draw, seed)| == 36
    ensures var u := RandomUuid(draw, seed); u[8] == '-' && u[13] == '-' && u[18] == '-' && u[23] == '-'
    ensures RandomUuid(draw, seed)[14] == '4'
    ensures RandomUuid(draw, seed)[..30] == UUID_PREFIX
    ensures forall i :: 30 <= i < 36 ==> RandomUuid(draw, seed)[i] in HEX
    ensures forall j :: 30 <= j < 36 ==> Some(RandomUuid(draw, seed)[j]) == RandomPick(draw, seed + (j - 30), HEX)
  {
    var tail := RandomStringOf(draw, HEX, 6, seed);
    RandomStringSpec(draw, HEX, 6, seed);
    var u := RandomUuid(draw, seed);
    assert forall i :: 0 <= i < 6 ==> u[30 + i] == tail[i];
  }
}
