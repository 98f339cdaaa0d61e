/**
 * Python's ordering of strings (lexicographic by code point) and
 * `sorted(set(xs))`: the distinct elements of a list in increasing order.
 */
module Ordering {
  import opened Text

  /** `a < b` on Python strings. */
  predicate Less(a: String, b: String) {
    if a == [] then b != []
    else if b == [] then false
    else a[0] < b[0] || (a[0] == b[0] && Less(a[1..], b[1..]))
  }

  lemma {:induction false} LessIrreflexive(a: String)
    ensures !Less(a, a)
    decreases |a|
  {
    if a != [] {
      LessIrreflexive(a[1..]);
    }
  }

  lemma {:induction false} LessTransitive(a: String, b: String, c: String)
    requires Less(a, b) && Less(b, c)
    ensures Less(a, c)
    decreases |a|
  {
    if a != [] && b != [] && c != [] && a[0] == b[0] && b[0] == c[0] {
      LessTransitive(a[1..], b[1..], c[1..]);
    }
  }

  lemma {:induction false} LessTotal(a: String, b: String)
    requires a != b
    ensures Less(a, b) || Less(b, a)
    decreases |a|
  {
    if a != [] && b != [] && a[0] == b[0] {
      assert a == [a[0]] + a[1..] && b == [b[0]] + b[1..];
      LessTotal(a[1..], b[1..]);
    }
  }

  /** Each element is smaller than the next. */
  predicate Increasing(xs: seq<String>) {
    forall i :: 0 <= i < |xs| - 1 ==> Less(xs[i], xs[i + 1])
  }

  /** An increasing list is ordered between any two positions, so it holds no duplicate. */
  lemma {:induction false} IncreasingIsStrict(xs: seq<String>)
    requires Increasing(xs)
    ensures forall i, j :: 0 <= i < j < |xs| ==> Less(xs[i], xs[j]) && xs[i] != xs[j]
    decreases |xs|
  {
    if |xs| > 1 {
      IncreasingIsStrict(xs[1..]);
      forall i, j | 0 <= i < j < |xs| ensures Less(xs[i], xs[j]) && xs[i] != xs[j] {
        if i > 0 {
          assert xs[i] == xs[1..][i - 1] && xs[j] == xs[1..][j - 1];
        } else if j > 1 {
          assert xs[1] == xs[1..][0] && xs[j] == xs[1..][j - 1];
          LessTransitive(xs[0], xs[1], xs[j]);
        }
        if xs[i] == xs[j] {
          LessIrreflexive(xs[i]);
        }
      }
    }
  }

  /** Insert `x` into an increasing list unless it is already there. */
  function Insert(x: String, xs: seq<String>): (r: seq<String>)
    requires Increasing(xs)
    ensures Increasing(r)
    ensures forall y :: y in r <==> y == x || y in xs
    ensures |r| > 0 && (r[0] == x || (xs != [] && r[0] == xs[0]))
    decreases |xs|
  {
    if xs == [] then [x]
    else if x == xs[0] then xs
    else if Less(x, xs[0]) then [x] + xs
    else
      LessTotal(x, xs[0]);
      assert Increasing(xs[1..]) by {
        forall i | 0 <= i < |xs[1..]| - 1 ensures Less(xs[1..][i], xs[1..][i + 1]) {
          assert xs[1..][i] == xs[i + 1] && xs[1..][i + 1] == xs[i + 2];
        }
      }
      var rest := Insert(x, xs[1..]);
      assert Less(xs[0], rest[0]) by {
        if rest[0] != x {
          assert rest[0] == xs[1];
        }
      }
      [xs[0]] + rest
  }

  /** `sorted(set(xs))`. */
  function SortDistinct(xs: seq<String>): (r: seq<String>)
    ensures Increasing(r)
    ensures forall y :: y in r <==> y in xs
  {
    if xs == [] then [] else Insert(xs[|xs| - 1], SortDistinct(xs[..|xs| - 1]))
  }

  /** The sorted distinct list holds each element of the input exactly once. */
  lemma SortDistinctOnce(xs: seq<String>)
    ensures var r := SortDistinct(xs);
      forall i, j :: 0 <= i < j < |r| ==> r[i] != r[j]
  {
    IncreasingIsStrict(SortDistinct(xs));
  }

  /** The result depends only on which elements occur: the increasing list of a set is unique. */
  lemma {:induction false} IncreasingUnique(a: seq<String>, b: seq<String>)
    requires Increasing(a) && Increasing(b)
    requires forall y :: y in a <==> y in b
    ensures a == b
    decreases |a|
  {
    IncreasingIsStrict(a);
    IncreasingIsStrict(b);
    if a != [] {
      assert a[0] in b;
    }
    if b != [] {
      assert b[0] in a;
    }
    if a != [] && b != [] {
      if a[0] != b[0] {
        assert a[0] in a;
        var j :| 0 <= j < |b| && b[j] == a[0];
        assert b[0] in b;
        var k :| 0 <= k < |a| && a[k] == b[0];
        LessTransitive(a[0], b[0], a[0]);
        LessIrreflexive(a[0]);
        assert false;
      }
      forall y ensures y in a[1..] <==> y in b[1..] {
        if y in a[1..] {
          var i :| 0 <= i < |a[1..]| && a[1..][i] == y;
          assert y != a[0];
          assert y in b;
        }
        if y in b[1..] {
          var i :| 0 <= i < |b[1..]| && b[1..][i] == y;
          assert y != b[0];
          assert y in a;
        }
      }
      assert Increasing(a[1..]) by {
        forall i | 0 <= i < |a[1..]| - 1 ensures Less(a[1..][i], a[1..][i + 1]) {
          assert a[1..][i] == a[i + 1];
        }
      }
      assert Increasing(b[1..]) by {
        forall i | 0 <= i < |b[1..]| - 1 ensures Less(b[1..][i], b[1..][i + 1]) {
          assert b[1..][i] == b[i + 1];
        }
      }
      IncreasingUnique(a[1..], b[1..]);
      assert a == [a[0]] + a[1..] && b == [b[0]] + b[1..];
    }
  }

  /** The order in which the elements were seen does not matter. */
  lemma SortDistinctOfSameElements(xs: seq<String>, ys: seq<String>)
    requires forall y :: y in xs <==> y in ys
    ensures SortDistinct(xs) == SortDistinct(ys)
  {
    IncreasingUnique(SortDistinct(xs), SortDistinct(ys));
  }
}
