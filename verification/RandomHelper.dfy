/**
 * The random source, passed explicitly. It is an arbitrary stream of raw draws together with
 * the number already spent, so every sequence of choices the game's random helper could make
 * is one stream. The weighting of the helper's picks is not modelled: a pick is only some
 * valid index into a non-empty list.
 */
module RandomHelper {

  datatype RandomSource = RandomSource(stream: nat -> nat, drawn: nat)

  /** Picks an index into a list of `n` items and spends one draw. */
  function RandomIndex(rng: RandomSource, n: nat): (r: (nat, RandomSource))
    requires n > 0
    ensures r.0 < n
    ensures r.1.drawn == rng.drawn + 1
  {
    (rng.stream(rng.drawn) % n, RandomSource(rng.stream, rng.drawn + 1))
  }

  /** The source constrains nothing else: some source picks any given valid index. */
  lemma RandomIndexReachesEvery(n: nat, k: nat)
    requires k < n
    ensures exists rng: RandomSource :: RandomIndex(rng, n).0 == k
  {
    var rng := RandomSource(_ => k, 0);
    assert RandomIndex(rng, n).0 == k;
  }
}
