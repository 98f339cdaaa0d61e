/**
 * String helpers shared by the modules: the parts of Python's `str` API the
 * source relies on (`lower`, `upper`, `strip`, `split`, `join`, `in`,
 * `startswith`, `str(int)`), over ASCII.
 */
module Text {
  import opened Wrappers

  type String = seq<char>

  /** Python's `str.isspace` restricted to ASCII: tab .. carriage return, the four separators, space. */
  predicate IsSpace(c: char) {
    ('\t' <= c <= '\r') || ('\U{1C}' <= c <= ' ')
  }

  predicate NoSpace(s: String) {
    forall i :: 0 <= i < |s| ==> !IsSpace(s[i])
  }

  function LowerChar(c: char): char {
    if 'A' <= c <= 'Z' then (c as int + 32) as char else c
  }

  function UpperChar(c: char): char {
    if 'a' <= c <= 'z' then (c as int - 32) as char else c
  }

  function Lower(s: String): (r: String)
    ensures |r| == |s|
    ensures forall i :: 0 <= i < |s| ==> r[i] == LowerChar(s[i])
  {
    if s == [] then [] else [LowerChar(s[0])] + Lower(s[1..])
  }

  function Upper(s: String): (r: String)
    ensures |r| == |s|
    ensures forall i :: 0 <= i < |s| ==> r[i] == UpperChar(s[i])
  {
    if s == [] then [] else [UpperChar(s[0])] + Upper(s[1..])
  }

  /** Python's `str.title()` for a single lower-case word: first letter upper-cased. */
  function Capitalize(s: String): (r: String)
    ensures |r| == |s|
    ensures s != [] ==> r[0] == UpperChar(s[0]) && r[1..] == s[1..]
  {
    if s == [] then [] else [UpperChar(s[0])] + s[1..]
  }

  predicate StartsWith(s: String, p: String) {
    |p| <= |s| && s[..|p|] == p
  }

  /** Python's `str.lstrip()`. */
  function TrimStart(s: String): (r: String)
    ensures |r| <= |s| && r == s[|s| - |r|..]
    ensures r == [] || !IsSpace(r[0])
    ensures forall i :: 0 <= i < |s| - |r| ==> IsSpace(s[i])
  {
    if s != [] && IsSpace(s[0]) then TrimStart(s[1..]) else s
  }

  /** Python's `str.rstrip()`. */
  function TrimEnd(s: String): (r: String)
    ensures |r| <= |s| && r == s[..|r|]
    ensures r == [] || !IsSpace(r[|r| - 1])
    ensures forall i :: |r| <= i < |s| ==> IsSpace(s[i])
  {
    if s != [] && IsSpace(s[|s| - 1]) then TrimEnd(s[..|s| - 1]) else s
  }

  /** Python's `str.strip()`: no leading or trailing white space, empty exactly when `s` is all white space. */
  function Strip(s: String): (r: String)
    ensures r == [] || (!IsSpace(r[0]) && !IsSpace(r[|r| - 1]))
    ensures r == [] <==> forall i :: 0 <= i < |s| ==> IsSpace(s[i])
    ensures OccursAt(s, r, |s| - |TrimStart(s)|)
  {
    TrimEnds(s);
    TrimSlice(s);
    TrimBlank(s);
    TrimEnd(TrimStart(s))
  }

  /** Stripping both ends leaves a string that begins and ends with a non-space. */
  lemma TrimEnds(s: String)
    ensures var r := TrimEnd(TrimStart(s));
      r == [] || (!IsSpace(r[0]) && !IsSpace(r[|r| - 1]))
  {
    var t := TrimStart(s);
    var r := TrimEnd(t);
    if r != [] {
      assert r[0] == t[0];
    }
  }

  /** What is left after stripping is the slice of `s` after its leading white space. */
  lemma TrimSlice(s: String)
    ensures OccursAt(s, TrimEnd(TrimStart(s)), |s| - |TrimStart(s)|)
  {
    var t := TrimStart(s);
    var r := TrimEnd(t);
    SliceOfSuffix(s, t, r, |s| - |t|);
  }

  lemma SliceOfSuffix(s: String, t: String, r: String, k: nat)
    requires k <= |s| && t == s[k..] && |r| <= |t| && r == t[..|r|]
    ensures OccursAt(s, r, k)
  {
    assert s[k..k + |r|] == s[k..][..|r|];
  }

  /** Stripping gives the empty string exactly when `s` is all white space. */
  lemma TrimBlank(s: String)
    ensures TrimEnd(TrimStart(s)) == [] <==> forall i :: 0 <= i < |s| ==> IsSpace(s[i])
  {
    var t := TrimStart(s);
    var r := TrimEnd(t);
    if t != [] {
      assert s[|s| - |t|] == t[0];
    }
  }

  /** Stripping twice is stripping once. */
  lemma StripIdempotent(s: String)
    ensures Strip(Strip(s)) == Strip(s)
  {
    var r := Strip(s);
    if r != [] {
      assert TrimStart(r) == r;
      assert TrimEnd(r) == r;
    }
  }

  /** Number of leading non-space characters of `s`. */
  function RunLength(s: String): (k: nat)
    ensures k <= |s|
    ensures NoSpace(s[..k])
    ensures k < |s| ==> IsSpace(s[k])
    ensures s != [] && !IsSpace(s[0]) ==> k > 0
  {
    if s == [] || IsSpace(s[0]) then 0 else 1 + RunLength(s[1..])
  }

  /** Python's `str.split()` with no separator: the maximal runs of non-space characters. */
  function Words(s: String): (ws: seq<String>)
    ensures forall i :: 0 <= i < |ws| ==> ws[i] != [] && NoSpace(ws[i])
    decreases |s|
  {
    var t := TrimStart(s);
    if t == [] then []
    else
      var k := RunLength(t);
      var rest := Words(t[k..]);
      AllWordsCons(t[..k], rest);
      [t[..k]] + rest
  }

  lemma AllWordsCons(w: String, ws: seq<String>)
    requires w != [] && NoSpace(w)
    requires forall i :: 0 <= i < |ws| ==> ws[i] != [] && NoSpace(ws[i])
    ensures forall i :: 0 <= i < |[w] + ws| ==> ([w] + ws)[i] != [] && NoSpace(([w] + ws)[i])
  {
    forall i | 0 <= i < |[w] + ws|
      ensures ([w] + ws)[i] != [] && NoSpace(([w] + ws)[i])
    {
      if i > 0 {
        assert ([w] + ws)[i] == ws[i - 1];
      }
    }
  }

  /** A string has no words exactly when it is all white space. */
  lemma WordsOfBlank(s: String)
    ensures Words(s) == [] <==> forall i :: 0 <= i < |s| ==> IsSpace(s[i])
  {
    var t := TrimStart(s);
    if t != [] {
      assert s[|s| - |t|] == t[0];
    }
  }

  /** Python's `sep.join(xs)`. */
  function Join(sep: String, xs: seq<String>): (r: String)
  {
    if |xs| == 0 then []
    else if |xs| == 1 then xs[0]
    else xs[0] + sep + Join(sep, xs[1..])
  }

  lemma {:induction false} JoinAppend(sep: String, a: seq<String>, b: seq<String>)
    requires a != [] && b != []
    ensures Join(sep, a + b) == Join(sep, a) + sep + Join(sep, b)
    decreases |a|
  {
    if |a| == 1 {
      assert a + b == [a[0]] + b;
      assert (a + b)[1..] == b;
    } else {
      assert (a + b)[1..] == a[1..] + b;
      JoinAppend(sep, a[1..], b);
    }
  }

  /** A non-empty run of non-space characters. */
  predicate IsWord(w: String) {
    w != [] && NoSpace(w)
  }

  /** Splitting on white space undoes joining space-free words with one space. */
  lemma {:induction false} WordsOfJoin(ws: seq<String>)
    requires forall i :: 0 <= i < |ws| ==> IsWord(ws[i])
    ensures Words(Join(" ", ws)) == ws
    decreases |ws|
  {
    if |ws| == 1 {
      WordsOfOne(ws[0]);
    } else if |ws| > 1 {
      var tail := ws[1..];
      TailWords(ws);
      JoinOfWordsNonEmpty(tail);
      WordsOfJoin(tail);
      WordsOfJoinCons(ws);
    }
  }

  lemma TailWords(ws: seq<String>)
    requires |ws| > 0 && forall i :: 0 <= i < |ws| ==> IsWord(ws[i])
    ensures forall i :: 0 <= i < |ws[1..]| ==> IsWord(ws[1..][i])
  {
  }

  lemma WordsOfOne(w: String)
    requires IsWord(w)
    ensures Words(Join(" ", [w])) == [w]
  {
    WordsCons(w, []);
    assert w + [] == w;
  }

  lemma WordsOfJoinCons(ws: seq<String>)
    requires |ws| > 1 && IsWord(ws[0])
    requires Join(" ", ws[1..]) != [] && !IsSpace(Join(" ", ws[1..])[0])
    requires Words(Join(" ", ws[1..])) == ws[1..]
    ensures Words(Join(" ", ws)) == ws
  {
    var rest := Join(" ", ws[1..]);
    JoinConsSpace(ws);
    WordsBeforeSpace(ws[0], rest);
    ConsTail(ws);
  }

  lemma JoinConsSpace(ws: seq<String>)
    requires |ws| > 1
    ensures Join(" ", ws) == ws[0] + (" " + Join(" ", ws[1..]))
  {
  }

  lemma ConsTail(ws: seq<String>)
    requires |ws| > 0
    ensures [ws[0]] + ws[1..] == ws
  {
  }

  lemma WordsBeforeSpace(w: String, rest: String)
    requires w != [] && NoSpace(w)
    requires rest != [] && !IsSpace(rest[0])
    ensures Words(w + (" " + rest)) == [w] + Words(rest)
  {
    var tail := " " + rest;
    assert tail[0] == ' ';
    WordsCons(w, tail);
    WordsAfterSpace(rest);
  }

  lemma WordsAfterSpace(s: String)
    requires s != [] && !IsSpace(s[0])
    ensures Words(" " + s) == Words(s)
  {
    assert (" " + s)[1..] == s;
    assert TrimStart(" " + s) == TrimStart(s) == s;
  }

  /** A word followed by nothing or by white space is the first word. */
  lemma WordsCons(w: String, tail: String)
    requires w != [] && NoSpace(w)
    requires tail == [] || IsSpace(tail[0])
    ensures Words(w + tail) == [w] + Words(tail)
  {
    var s := w + tail;
    assert TrimStart(s) == s;
    RunLengthOfWord(w, tail);
    assert s[..|w|] == w;
    assert s[|w|..] == tail;
    if tail != [] {
      assert TrimStart(tail) == TrimStart(tail[1..]);
    }
  }

  lemma {:induction false} RunLengthOfWord(w: String, tail: String)
    requires NoSpace(w)
    requires tail == [] || IsSpace(tail[0])
    ensures RunLength(w + tail) == |w|
    decreases |w|
  {
    if w == [] {
      assert w + tail == tail;
    } else {
      assert (w + tail)[1..] == w[1..] + tail;
      RunLengthOfWord(w[1..], tail);
    }
  }

  lemma {:induction false} JoinOfWordsNonEmpty(ws: seq<String>)
    requires |ws| >= 1
    requires forall i :: 0 <= i < |ws| ==> IsWord(ws[i])
    ensures Join(" ", ws) != [] && !IsSpace(Join(" ", ws)[0])
  {
    if |ws| > 1 {
      assert Join(" ", ws)[0] == ws[0][0];
    }
  }

  /** `w` occurs in `s` starting at position `j`. */
  predicate OccursAt(s: String, w: String, j: int) {
    0 <= j && j + |w| <= |s| && s[j..j + |w|] == w
  }

  lemma OccursAtTail(s: String, w: String, j: int)
    requires s != [] && 1 <= j
    ensures OccursAt(s, w, j) <==> OccursAt(s[1..], w, j - 1)
  {
    if j + |w| <= |s| {
      var a := s[j..j + |w|];
      var b := s[1..][j - 1..j - 1 + |w|];
      assert |a| == |b|;
      assert forall k :: 0 <= k < |a| ==> a[k] == b[k];
    }
  }

  /** Position of the first occurrence of `w` in `s`: Python's `s.find(w)`, or None for -1. */
  function IndexOf(s: String, w: String): (r: Option<nat>)
    ensures r.Some? ==> OccursAt(s, w, r.value)
    ensures r.Some? ==> forall j :: 0 <= j < r.value ==> !OccursAt(s, w, j)
    ensures r.None? ==> forall j :: !OccursAt(s, w, j)
  {
    if |w| > |s| then None
    else if s[..|w|] == w then Some(0)
    else
      match IndexOf(s[1..], w)
      case None =>
        assert forall j | 1 <= j :: OccursAt(s, w, j) ==> OccursAt(s[1..], w, j - 1) by {
          forall j | 1 <= j { OccursAtTail(s, w, j); }
        }
        None
      case Some(k) =>
        assert forall j | 1 <= j :: OccursAt(s, w, j) <==> OccursAt(s[1..], w, j - 1) by {
          forall j | 1 <= j { OccursAtTail(s, w, j); }
        }
        Some(k + 1)
  }

  /** Position of the last occurrence of `w` in `s`: Python's `s.rfind(w)`, or None for -1. */
  function LastIndexOf(s: String, w: String): (r: Option<nat>)
    ensures r.Some? ==> OccursAt(s, w, r.value)
    ensures r.Some? ==> forall j :: r.value < j ==> !OccursAt(s, w, j)
    ensures r.None? ==> forall j :: !OccursAt(s, w, j)
    decreases |s|
  {
    if |w| > |s| then None
    else if s[|s| - |w|..] == w then Some(|s| - |w|)
    else
      var r := LastIndexOf(s[..|s| - 1], w);
      assert forall j :: OccursAt(s, w, j) && j < |s| - |w| ==> OccursAt(s[..|s| - 1], w, j) by {
        forall j | OccursAt(s, w, j) && j < |s| - |w| ensures OccursAt(s[..|s| - 1], w, j) {
          assert s[..|s| - 1][j..j + |w|] == s[j..j + |w|];
        }
      }
      assert forall j :: OccursAt(s[..|s| - 1], w, j) ==> OccursAt(s, w, j) by {
        forall j | OccursAt(s[..|s| - 1], w, j) ensures OccursAt(s, w, j) {
          assert s[..|s| - 1][j..j + |w|] == s[j..j + |w|];
        }
      }
      r
  }

  /** Python's `w in s`. */
  predicate Contains(s: String, w: String) {
    IndexOf(s, w).Some?
  }

  lemma ContainsAt(s: String, w: String, j: nat)
    requires OccursAt(s, w, j)
    ensures Contains(s, w)
  {
  }

  /** Python's `s.split(c)` for a one-character separator: always at least one piece. */
  function SplitOn(s: String, c: char): (r: seq<String>)
    ensures |r| >= 1
    ensures forall i :: 0 <= i < |r| ==> c !in r[i]
    decreases |s|
  {
    if c !in s then [s]
    else
      var k := FirstIndex(s, c);
      [s[..k]] + SplitOn(s[k + 1..], c)
  }

  function FirstIndex(s: String, c: char): (k: nat)
    requires c in s
    ensures k < |s| && s[k] == c && c !in s[..k]
  {
    if s[0] == c then 0 else 1 + FirstIndex(s[1..], c)
  }

  /** Splitting on a character undoes joining pieces that do not contain it. */
  lemma {:induction false} SplitOnJoin(xs: seq<String>, c: char)
    requires |xs| >= 1
    requires forall i :: 0 <= i < |xs| ==> c !in xs[i]
    ensures SplitOn(Join([c], xs), c) == xs
    decreases |xs|
  {
    if |xs| == 1 {
    } else {
      var s := Join([c], xs);
      var rest := Join([c], xs[1..]);
      assert s == xs[0] + [c] + rest;
      assert s[|xs[0]|] == c;
      assert c in s;
      FirstIndexAfter(xs[0], c, rest);
      assert s[..|xs[0]|] == xs[0];
      assert s[|xs[0]| + 1..] == rest;
      SplitOnJoin(xs[1..], c);
    }
  }

  lemma {:induction false} FirstIndexAfter(a: String, c: char, b: String)
    requires c !in a
    ensures c in a + [c] + b && FirstIndex(a + [c] + b, c) == |a|
    decreases |a|
  {
    assert (a + [c] + b)[|a|] == c;
    if a != [] {
      assert (a + [c] + b)[1..] == a[1..] + [c] + b;
      FirstIndexAfter(a[1..], c, b);
    }
  }

  /** Python's `c * n`. */
  function Repeat(c: char, n: nat): (r: String)
    ensures |r| == n && forall i :: 0 <= i < n ==> r[i] == c
  {
    if n == 0 then [] else [c] + Repeat(c, n - 1)
  }

  function DigitChar(d: nat): char
    requires d < 10
  {
    "0123456789"[d]
  }

  /** Python's `str(n)` for a natural number. */
  function NatToString(n: nat): (r: String)
    ensures r != [] && forall i :: 0 <= i < |r| ==> '0' <= r[i] <= '9'
  {
    if n < 10 then [DigitChar(n)] else NatToString(n / 10) + [DigitChar(n % 10)]
  }

  /** Python's `str(n)` for any integer. */
  function IntToString(n: int): (r: String)
    ensures r != []
  {
    if n < 0 then "-" + NatToString(-n) else NatToString(n)
  }

  /** Python's `f"{n:03d}"` for a natural number: zero-padded to at least three digits. */
  function Pad3(n: nat): (r: String)
    ensures |r| >= 3
  {
    var d := NatToString(n);
    Repeat('0', if |d| < 3 then 3 - |d| else 0) + d
  }
}
