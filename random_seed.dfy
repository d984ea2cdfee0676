/**
  The interface of the seeded pseudo-random generator library the engine draws
  from. Its algorithm is not modelled: a generator created from a seed is known
  only through the range promise of `intBetween`.
*/
module RandomSeed {

  /**
    `r.create(seed).intBetween(lo, hi)`, the first draw of a generator created
    from `seed`: for `lo <= hi` it lies in `[lo, hi]`. Being a function, equal
    seeds give equal draws.
  */
  type IntBetween = f: (int, int, int) -> int | forall seed, lo, hi :: lo <= hi ==> lo <= f(seed, lo, hi) <= hi
    witness (seed: int, lo: int, hi: int) => lo

  /**
    A function from a seeded generator to a value (`(r: RandomSeed) => A`): one
    of the three built-in named-type generators, or one the caller supplied,
    known by an identity only.
  */
  datatype SeededGen = IntGen | DateGen | UuidGen | Supplied(id: nat)
}
