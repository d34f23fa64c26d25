/** The random draws the mock-data generator makes, as deterministic functions of
    explicit draw values. Each function maps a raw draw to the value numpy would
    return, so that the generator becomes a function of its inputs. */
module Sampling {

  /** `randint(lo, hi)`: an integer in the half-open range [lo, hi), selected by
      the raw draw `u`. numpy refuses an empty range, hence the precondition. */
  function RandInt(lo: int, hi: int, u: nat): (r: int)
    requires lo < hi
    ensures lo <= r < hi
  {
    lo + u % (hi - lo)
  }

  /** Every value of the range is reached by some draw. */
  lemma RandIntCovers(lo: int, hi: int, v: int)
    requires lo <= v < hi
    ensures RandInt(lo, hi, (v - lo) as nat) == v
  {
    assert (v - lo) % (hi - lo) == v - lo;
  }

  /** `choice(xs)` without weights: one element of the list, selected by `u`. */
  function Choice<T>(xs: seq<T>, u: nat): (r: T)
    requires |xs| > 0
    ensures r in xs
  {
    xs[u % |xs|]
  }

  /** `int(max(0, x))`: clamps a sample at zero and truncates it towards zero
      (for a non-negative value that is the floor). */
  function NonNegInt(x: real): (r: int)
    ensures r >= 0
    ensures x <= 0.0 ==> r == 0
    ensures x > 0.0 ==> r as real <= x < r as real + 1.0
  {
    if x <= 0.0 then 0 else x.Floor
  }

  /** `normal(loc, scale)`: numpy scales a standard normal sample `z`. */
  function Normal(loc: real, scale: real, z: real): (r: real)
    ensures z == 0.0 ==> r == loc
    ensures scale > 0.0 ==> (r > loc <==> z > 0.0)
  {
    loc + scale * z
  }

  /** The index numpy's weighted `choice` picks for the uniform sample `u`: the
      first position whose cumulative weight exceeds `u` (a right-sided search of
      the cumulative weights), the last position when none does. */
  function FirstAbove(cdf: seq<real>, u: real): (i: nat)
    requires |cdf| > 0
    ensures i < |cdf|
    ensures forall k :: 0 <= k < i ==> cdf[k] <= u
    ensures i < |cdf| - 1 ==> u < cdf[i]
  {
    if |cdf| == 1 || u < cdf[0] then 0 else 1 + FirstAbove(cdf[1..], u)
  }

  /** `choice(xs, p=...)`, given the cumulative sums `cdf` of the weights `p`. */
  function WeightedChoice<T>(xs: seq<T>, cdf: seq<real>, u: real): (r: T)
    requires |xs| == |cdf| > 0
    ensures r in xs
    ensures forall k :: 0 <= k < |cdf| - 1 && u < cdf[k] ==> r in xs[..k + 1]
  {
    var i := FirstAbove(cdf, u);
    assert forall k :: 0 <= k < |cdf| - 1 && u < cdf[k] ==> i <= k;
    xs[i]
  }
}
