/**
 * Python's `random` module as an explicit generator value.
 *
 * A state `g` yields one raw draw (`g.state`); `Next` steps to the following
 * state, and `Advance(g, k)` is the state after `k` draws. `RandInt` is
 * `random.randint(lo, hi)` and `Choice` the index picked by
 * `random.choices(population, weights)`, both read off the current state.
 * The stepping function stands in for CPython's Mersenne Twister: only
 * determinism and the ranges of the draws are relied upon.
 */
module Rand {

  datatype Rng = Rng(state: nat)

  const Modulus: nat := 0x8000_0000

  /** `random.seed(s)`: CPython seeds an integer by its absolute value. */
  function Seed(s: int): Rng
  {
    Rng(if s < 0 then -s else s)
  }

  function Next(g: Rng): Rng
  {
    Rng((g.state * 1103515245 + 12345) % Modulus)
  }

  /** The state after `k` draws from `g`. */
  function Advance(g: Rng, k: nat): Rng
  {
    if k == 0 then g else Next(Advance(g, k - 1))
  }

  lemma AdvanceNext(g: Rng, k: nat)
    ensures Advance(g, k + 1) == Next(Advance(g, k))
  {
  }

  /** Drawing `a` values and then `b` more is drawing `a + b`. */
  lemma {:induction false} AdvanceAdd(g: Rng, a: nat, b: nat)
    ensures Advance(Advance(g, a), b) == Advance(g, a + b)
  {
    if b > 0 {
      AdvanceAdd(g, a, b - 1);
    }
  }

  /** `random.randint(lo, hi)`: an integer in the closed range. */
  function RandInt(g: Rng, lo: int, hi: int): (r: int)
    requires lo <= hi
    ensures lo <= r <= hi
  {
    lo + g.state % (hi - lo + 1)
  }

  function Sum(w: seq<int>): int
  {
    if w == [] then 0 else w[0] + Sum(w[1..])
  }

  /** What `random.choices` accepts: non-negative weights with a positive total. */
  predicate ValidWeights(w: seq<int>)
  {
    (forall k :: 0 <= k < |w| ==> w[k] >= 0) && Sum(w) > 0
  }

  /**
   * The bisection over cumulative weights: the index whose cumulative
   * interval `[Sum(w[..i]), Sum(w[..i+1]))` holds `r`. An index of weight 0
   * is never picked.
   */
  function Pick(w: seq<int>, r: int): (i: nat)
    requires ValidWeights(w) && 0 <= r < Sum(w)
    ensures i < |w| && w[i] > 0
    ensures Sum(w[..i]) <= r < Sum(w[..i]) + w[i]
  {
    if r < w[0] then (assert w[..0] == []; 0)
    else
      var tl := w[1..];
      assert ValidWeights(tl) by {
        assert forall k :: 0 <= k < |tl| ==> tl[k] == w[k + 1];
      }
      var i' := Pick(tl, r - w[0]);
      assert w[..1 + i'][1..] == tl[..i'];
      1 + i'
  }

  /** The index drawn by `random.choices(population, weights)[0]` from state `g`. */
  function Choice(g: Rng, w: seq<int>): (i: nat)
    requires ValidWeights(w)
    ensures i < |w| && w[i] > 0
  {
    Pick(w, g.state % Sum(w))
  }
}
