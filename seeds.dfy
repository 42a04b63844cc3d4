/** Seed selection at the start of an image-generation task. */
module Seeds {

  /** The request value that asks the server to pick a seed. */
  const RANDOM_SEED := -1

  /** Generated seeds are reduced into the unsigned 32-bit range. */
  const SEED_MODULUS := 0x1_0000_0000

  /** The seed a task uses and reports back. `raw` is the value of the
      library's random-seed call, taken as an arbitrary integer. Python's `%`
      by a positive modulus floors, so the reduced value is never negative,
      as with Dafny's `%`. */
  function SelectSeed(requested: int, raw: int): (seed: int)
    ensures requested != RANDOM_SEED ==> seed == requested
    ensures requested == RANDOM_SEED ==> 0 <= seed < SEED_MODULUS
    ensures requested == RANDOM_SEED ==> (raw - seed) % SEED_MODULUS == 0
    ensures seed != RANDOM_SEED
  {
    if requested == RANDOM_SEED then raw % SEED_MODULUS else requested
  }

  /** A raw seed already in the 32-bit range is used unchanged. */
  lemma GeneratedSeedInRange(raw: int)
    requires 0 <= raw < SEED_MODULUS
    ensures SelectSeed(RANDOM_SEED, raw) == raw
  {
  }

  /** Resubmitting the reported seed selects that same seed again, whatever
      the random source then yields. */
  lemma SeedReplay(requested: int, raw: int, rawLater: int)
    ensures SelectSeed(SelectSeed(requested, raw), rawLater) == SelectSeed(requested, raw)
  {
  }
}
