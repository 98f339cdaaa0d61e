/**
 * Fixed-size slicing, `[s[i:i + n] for i in range(0, len(s), n)]`: the idiom
 * behind the word chunks sent to TTS, the 4800-byte playback pieces and the
 * 3200-byte streaming frames.
 */
module Chunking {

  /** One byte of an audio buffer or a file. */
  newtype Byte = x: int | 0 <= x < 0x100

  function Min(a: int, b: int): int {
    if a <= b then a else b
  }

  /** The consecutive slices of `s` of length `n`, the last one possibly shorter. */
  function Chunks<T>(s: seq<T>, n: nat): (cs: seq<seq<T>>)
    requires n > 0
    decreases |s|
  {
    if |s| == 0 then []
    else if |s| <= n then [s]
    else [s[..n]] + Chunks(s[n..], n)
  }

  /** The elements of `xss`, in order: Python's `b"".join(xss)`. */
  function Flatten<T>(xss: seq<seq<T>>): seq<T> {
    if xss == [] then [] else xss[0] + Flatten(xss[1..])
  }

  lemma {:induction false} FlattenAppend<T>(a: seq<seq<T>>, b: seq<seq<T>>)
    ensures Flatten(a + b) == Flatten(a) + Flatten(b)
    decreases |a|
  {
    if a == [] {
      assert a + b == b;
    } else {
      assert (a + b)[1..] == a[1..] + b;
      FlattenAppend(a[1..], b);
    }
  }

  /** One step of the slicing loop: the first slice, then the slices of the rest. */
  lemma ChunksStep<T>(s: seq<T>, n: nat)
    requires n > 0 && s != []
    ensures Chunks(s, n) == [s[..Min(n, |s|)]] + Chunks(s[Min(n, |s|)..], n)
  {
    if |s| <= n {
      assert s[..|s|] == s;
      assert s[|s|..] == [];
    }
  }

  /** The slices put back together are the input, in order. */
  lemma {:induction false} ChunksFlatten<T>(s: seq<T>, n: nat)
    requires n > 0
    ensures Flatten(Chunks(s, n)) == s
    decreases |s|
  {
    if |s| > n {
      ChunksFlatten(s[n..], n);
      assert s == s[..n] + s[n..];
    }
  }

  /** Every slice holds between 1 and n elements, and all but the last exactly n. */
  lemma {:induction false} ChunkSizes<T>(s: seq<T>, n: nat)
    requires n > 0
    ensures forall i :: 0 <= i < |Chunks(s, n)| ==> 0 < |Chunks(s, n)[i]| <= n
    ensures forall i :: 0 <= i < |Chunks(s, n)| - 1 ==> |Chunks(s, n)[i]| == n
    decreases |s|
  {
    if |s| > n {
      ChunkSizes(s[n..], n);
      var cs := Chunks(s, n);
      assert forall i :: 1 <= i < |cs| ==> cs[i] == Chunks(s[n..], n)[i - 1];
    }
  }

  /** The ceiling of a / n, written as Python's `(a + n - 1) // n`. */
  function CeilDiv(a: nat, n: nat): nat
    requires n > 0
  {
    (a + n - 1) / n
  }

  /** The number of slices is the ceiling of |s| / n. */
  lemma {:induction false} ChunkCount<T>(s: seq<T>, n: nat)
    requires n > 0
    ensures |Chunks(s, n)| == CeilDiv(|s|, n)
    decreases |s|
  {
    if |s| == 0 {
      assert (n - 1) / n == 0;
    } else if |s| <= n {
      assert n <= |s| + n - 1 < 2 * n;
      DivBetween(|s| + n - 1, n, 1);
    } else {
      ChunkCount(s[n..], n);
      var a := |s| - n + n - 1;
      DivShift(a, n);
    }
  }

  lemma DivBetween(a: int, n: int, q: int)
    requires n > 0 && q * n <= a < (q + 1) * n
    ensures a / n == q
  {
    var r := a / n;
    assert a == r * n + a % n && 0 <= a % n < n;
    if r < q {
      MulMono(r + 1, q, n);
      assert false;
    } else if r > q {
      MulMono(q + 1, r, n);
      assert false;
    }
  }

  lemma MulMono(x: int, y: int, n: int)
    requires x <= y && n > 0
    ensures x * n <= y * n
  {
    assert y * n - x * n == (y - x) * n;
  }

  lemma DivShift(a: int, n: int)
    requires n > 0 && a >= 0
    ensures (a + n) / n == a / n + 1
  {
    var q := a / n;
    assert q * n <= a < (q + 1) * n;
    DivBetween(a + n, n, q + 1);
  }
}
