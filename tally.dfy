/**
 * `collections.Counter(xs).most_common(1)[0][0]`: the value seen most often,
 * ties going to the value seen first (Counter keeps first-seen order and
 * `max` keeps the first maximal item).
 */
module Tally {

  function Count<T(==)>(xs: seq<T>, x: T): (c: nat)
    ensures c <= |xs|
    ensures c > 0 <==> x in xs
  {
    if xs == [] then 0 else (if xs[0] == x then 1 else 0) + Count(xs[1..], x)
  }

  /** The largest count among the elements at indices below `k`. */
  function MaxCountBelow<T(==)>(xs: seq<T>, k: nat): (m: nat)
    requires 0 < k <= |xs|
    ensures exists j :: 0 <= j < k && Count(xs, xs[j]) == m
    ensures forall j :: 0 <= j < k ==> Count(xs, xs[j]) <= m
  {
    if k == 1 then Count(xs, xs[0])
    else
      var m := MaxCountBelow(xs, k - 1);
      var c := Count(xs, xs[k - 1]);
      var r := if c > m then c else m;
      MaxCountStep(xs, k, m, r);
      r
  }

  lemma MaxCountStep<T>(xs: seq<T>, k: nat, m: nat, r: nat)
    requires 1 < k <= |xs|
    requires exists j :: 0 <= j < k - 1 && Count(xs, xs[j]) == m
    requires forall j :: 0 <= j < k - 1 ==> Count(xs, xs[j]) <= m
    requires r == m || r == Count(xs, xs[k - 1])
    requires m <= r && Count(xs, xs[k - 1]) <= r
    ensures exists j :: 0 <= j < k && Count(xs, xs[j]) == r
    ensures forall j :: 0 <= j < k ==> Count(xs, xs[j]) <= r
  {
    if r != m {
      assert Count(xs, xs[k - 1]) == r;
    }
  }

  /** The first index at or after `i` whose element occurs exactly `m` times. */
  function FirstWithCount<T(==)>(xs: seq<T>, m: nat, i: nat): (j: nat)
    requires i <= |xs|
    requires exists j :: i <= j < |xs| && Count(xs, xs[j]) == m
    ensures i <= j < |xs| && Count(xs, xs[j]) == m
    ensures forall k :: i <= k < j ==> Count(xs, xs[k]) != m
    decreases |xs| - i
  {
    if Count(xs, xs[i]) == m then i else FirstWithCount(xs, m, i + 1)
  }

  /**
   * The most common element; among equally common ones, the one whose first
   * occurrence comes first.
   */
  function MostCommon<T(==)>(xs: seq<T>): (r: T)
    requires |xs| > 0
    ensures r in xs
    ensures forall i :: 0 <= i < |xs| ==> Count(xs, xs[i]) <= Count(xs, r)
    ensures exists j :: 0 <= j < |xs| && xs[j] == r && forall k :: 0 <= k < j ==> Count(xs, xs[k]) < Count(xs, r)
  {
    var m := MaxCountBelow(xs, |xs|);
    var j := FirstWithCount(xs, m, 0);
    xs[j]
  }
}
