/** Python's `random.choices(population, weights, k=1)`: the draw
    `random() * total` is located among the cumulative weights by a
    right bisection, and the last index is the fallback. */
module Choice {

  function Sum(ws: seq<nat>): nat
  {
    if ws == [] then 0 else ws[0] + Sum(ws[1..])
  }

  /** The index picked for the scaled draw `x` (which `random.choices`
      computes as `random() * Sum(ws)`): the first index whose cumulative
      weight exceeds `x`, or the last index when none among the others does. */
  function Pick(ws: seq<nat>, x: real): (i: nat)
    requires |ws| > 0
    ensures i < |ws|
    ensures i < |ws| - 1 ==> x < Sum(ws[..i + 1]) as real
    ensures i > 0 ==> Sum(ws[..i]) as real <= x
    decreases |ws|
  {
    if |ws| == 1 || x < ws[0] as real then
      assert ws[..1][1..] == [];
      0
    else
      var j := Pick(ws[1..], x - ws[0] as real);
      PrefixSum(ws, j + 1);
      PrefixSum(ws, j);
      1 + j
  }

  /** Splitting off the first weight of a prefix sum. */
  lemma PrefixSum(ws: seq<nat>, k: nat)
    requires 0 < |ws| && k < |ws|
    ensures Sum(ws[..k + 1]) == ws[0] + Sum(ws[1..][..k])
  {
    assert ws[..k + 1][1..] == ws[1..][..k];
  }

  lemma {:induction false} PrefixSumAll(ws: seq<nat>)
    ensures Sum(ws[..|ws|]) == Sum(ws)
  {
    assert ws[..|ws|] == ws;
  }

  /** A draw inside [0, total) selects an index whose weight interval
      `[Sum(ws[..i]), Sum(ws[..i+1]))` contains it, so each index is chosen
      exactly on an interval as wide as its own weight. */
  lemma PickInInterval(ws: seq<nat>, x: real)
    requires |ws| > 0 && 0.0 <= x < Sum(ws) as real
    ensures Sum(ws[..Pick(ws, x)]) as real <= x < Sum(ws[..Pick(ws, x) + 1]) as real
  {
    var i := Pick(ws, x);
    if i == |ws| - 1 {
      PrefixSumAll(ws);
    }
    if i == 0 {
      assert ws[..0] == [];
    }
  }
}
