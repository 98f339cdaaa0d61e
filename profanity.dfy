/**
 * The profanity filter that sits between the agent's LLM and the speech
 * output: every case-insensitive occurrence of "damn", "hell" or "crap" in a
 * response chunk is replaced by as many asterisks, and the node counts the
 * chunks it changed. Every event is passed on, exactly once.
 */
module Profanity {
  import opened Text
  import opened AgentEvents

  /**
   * The listed words. The source keeps them in a set, whose iteration order
   * Python does not fix; the model masks them in this order.
   */
  const Words: seq<String> := ["damn", "hell", "crap"]

  /** A word to mask: non-empty, lower-case ASCII letters only. */
  predicate IsWord(w: String) {
    |w| > 0 && forall k :: 0 <= k < |w| ==> 'a' <= w[k] <= 'z'
  }

  /** `w` matches `s` at position `j`, ignoring letter case. */
  predicate MatchesAt(s: String, w: String, j: int) {
    0 <= j && j + |w| <= |s| && forall k :: 0 <= k < |w| ==> LowerChar(s[j + k]) == w[k]
  }

  /** `r` is `s` with some characters turned into asterisks. */
  predicate MaskedFrom(s: String, r: String) {
    |r| == |s| && forall i :: 0 <= i < |s| ==> r[i] == s[i] || r[i] == '*'
  }

  /**
   * `re.compile(re.escape(w), re.IGNORECASE).sub("*" * len(w), s)`: scan from
   * the left, replace each match, and resume after it.
   */
  function MaskWord(s: String, w: String): (r: String)
    requires IsWord(w)
    ensures MaskedFrom(s, r)
    decreases |s|
  {
    if |s| < |w| then s
    else if MatchesAt(s, w, 0) then Repeat('*', |w|) + MaskWord(s[|w|..], w)
    else [s[0]] + MaskWord(s[1..], w)
  }

  /** An asterisk is never part of a match, so a match in masked text was a match before. */
  lemma MatchSurvivesMasking(s: String, r: String, w: String, j: int)
    requires IsWord(w) && MaskedFrom(s, r) && MatchesAt(r, w, j)
    ensures MatchesAt(s, w, j)
  {
    forall k | 0 <= k < |w| ensures LowerChar(s[j + k]) == w[k] {
      assert LowerChar(r[j + k]) == w[k] && 'a' <= w[k] <= 'z';
    }
  }

  lemma MatchesAtTail(s: String, w: String, j: int)
    requires |s| > 0 && j >= 1
    ensures MatchesAt(s, w, j) <==> MatchesAt(s[1..], w, j - 1)
  {
    if MatchesAt(s[1..], w, j - 1) {
      forall k | 0 <= k < |w| ensures LowerChar(s[j + k]) == w[k] {
        assert s[j + k] == s[1..][j - 1 + k];
      }
    }
    if MatchesAt(s, w, j) {
      forall k | 0 <= k < |w| ensures LowerChar(s[1..][j - 1 + k]) == w[k] {
        assert s[j + k] == s[1..][j - 1 + k];
      }
    }
  }

  lemma MatchesAtShift(s: String, w: String, n: nat, j: int)
    requires n <= |s| && j >= n
    ensures MatchesAt(s, w, j) <==> MatchesAt(s[n..], w, j - n)
  {
    if MatchesAt(s[n..], w, j - n) {
      forall k | 0 <= k < |w| ensures LowerChar(s[j + k]) == w[k] {
        assert s[j + k] == s[n..][j - n + k];
      }
    }
    if MatchesAt(s, w, j) {
      forall k | 0 <= k < |w| ensures LowerChar(s[n..][j - n + k]) == w[k] {
        assert s[j + k] == s[n..][j - n + k];
      }
    }
  }

  /** After masking `w`, no case-insensitive occurrence of `w` is left. */
  lemma {:induction false} MaskWordRemovesAll(s: String, w: String)
    requires IsWord(w)
    ensures forall j :: !MatchesAt(MaskWord(s, w), w, j)
    decreases |s|
  {
    var r := MaskWord(s, w);
    if |s| < |w| {
    } else if MatchesAt(s, w, 0) {
      var rest := MaskWord(s[|w|..], w);
      MaskWordRemovesAll(s[|w|..], w);
      assert r == Repeat('*', |w|) + rest;
      forall j ensures !MatchesAt(r, w, j) {
        if 0 <= j < |w| && j + |w| <= |r| {
          assert r[j] == '*' && 'a' <= w[0] <= 'z';
          assert LowerChar(r[j + 0]) != w[0];
        } else if j >= |w| {
          assert r[|w|..] == rest;
          MatchesAtShift(r, w, |w|, j);
        }
      }
    } else {
      var rest := MaskWord(s[1..], w);
      MaskWordRemovesAll(s[1..], w);
      assert r == [s[0]] + rest;
      forall j ensures !MatchesAt(r, w, j) {
        if j == 0 {
          if MatchesAt(r, w, 0) {
            MatchSurvivesMasking(s, r, w, 0);
          }
        } else if j > 0 {
          assert r[1..] == rest;
          MatchesAtTail(r, w, j);
        }
      }
    }
  }

  /** Every character masking changes lies inside an occurrence of the word in the input. */
  lemma {:induction false} MaskWordChangesOnlyMatches(s: String, w: String)
    requires IsWord(w)
    ensures forall i :: 0 <= i < |s| && MaskWord(s, w)[i] != s[i] ==>
      exists j :: j <= i < j + |w| && MatchesAt(s, w, j)
    decreases |s|
  {
    var r := MaskWord(s, w);
    if |s| < |w| {
    } else if MatchesAt(s, w, 0) {
      var rest := MaskWord(s[|w|..], w);
      MaskWordChangesOnlyMatches(s[|w|..], w);
      forall i | 0 <= i < |s| && r[i] != s[i] ensures exists j :: j <= i < j + |w| && MatchesAt(s, w, j) {
        if i >= |w| {
          assert r[i] == rest[i - |w|] && s[i] == s[|w|..][i - |w|];
          var j :| j <= i - |w| < j + |w| && MatchesAt(s[|w|..], w, j);
          MatchesAtShift(s, w, |w|, j + |w|);
        } else {
          assert 0 <= i < 0 + |w| && MatchesAt(s, w, 0);
        }
      }
    } else {
      var rest := MaskWord(s[1..], w);
      MaskWordChangesOnlyMatches(s[1..], w);
      forall i | 0 <= i < |s| && r[i] != s[i] ensures exists j :: j <= i < j + |w| && MatchesAt(s, w, j) {
        assert i >= 1;
        assert r[i] == rest[i - 1] && s[i] == s[1..][i - 1];
        var j :| j <= i - 1 < j + |w| && MatchesAt(s[1..], w, j);
        MatchesAtShift(s, w, 1, j + 1);
      }
    }
  }

  /** Text with no occurrence of the word comes back unchanged. */
  lemma {:induction false} MaskWordWithoutMatch(s: String, w: String)
    requires IsWord(w)
    requires forall j :: !MatchesAt(s, w, j)
    ensures MaskWord(s, w) == s
    decreases |s|
  {
    if |s| >= |w| {
      forall j ensures !MatchesAt(s[1..], w, j) {
        if j >= 0 {
          MatchesAtTail(s, w, j + 1);
        }
      }
      MaskWordWithoutMatch(s[1..], w);
    }
  }

  /** Masking never creates an occurrence: one absent before is absent after. */
  lemma MaskingKeepsAbsence(s: String, r: String, w: String)
    requires IsWord(w) && MaskedFrom(s, r)
    requires forall j :: !MatchesAt(s, w, j)
    ensures forall j :: !MatchesAt(r, w, j)
  {
    forall j ensures !MatchesAt(r, w, j) {
      if MatchesAt(r, w, j) {
        MatchSurvivesMasking(s, r, w, j);
      }
    }
  }

  lemma MaskedFromTransitive(s: String, t: String, r: String)
    requires MaskedFrom(s, t) && MaskedFrom(t, r)
    ensures MaskedFrom(s, r)
  {
  }

  /** `_filter_text`: mask every listed word. */
  function FilterText(text: String): (r: String)
    ensures MaskedFrom(text, r)
  {
    MaskWord(MaskWord(MaskWord(text, Words[0]), Words[1]), Words[2])
  }

  /** The words of `ws` masked one after the other, in order. */
  function MaskAll(text: String, ws: seq<String>): (r: String)
    requires forall n :: 0 <= n < |ws| ==> IsWord(ws[n])
    ensures MaskedFrom(text, r)
  {
    if ws == [] then text else MaskWord(MaskAll(text, ws[..|ws| - 1]), ws[|ws| - 1])
  }

  /** `_filter_text`: the loop over the listed words, reassigning the result after each. */
  method Filter(text: String) returns (result: String)
    ensures result == FilterText(text)
  {
    WordsAreWords();
    result := text;
    var i := 0;
    while i < |Words|
      invariant 0 <= i <= |Words|
      invariant result == MaskAll(text, Words[..i])
    {
      assert Words[..i + 1][..i] == Words[..i];
      result := MaskWord(result, Words[i]);
      i := i + 1;
    }
    assert Words[..i] == Words;
    assert Words[..1][..0] == [] && Words[..2][..1] == Words[..1] && Words[..3][..2] == Words[..2];
    assert MaskAll(text, Words[..1]) == MaskWord(text, Words[0]);
    assert MaskAll(text, Words[..2]) == MaskWord(MaskWord(text, Words[0]), Words[1]);
  }

  lemma WordsAreWords()
    ensures forall n :: 0 <= n < |Words| ==> IsWord(Words[n])
  {
    assert IsWord("damn") && IsWord("hell") && IsWord("crap");
  }

  /** After filtering, none of the listed words occurs, in any letter case. */
  lemma FilterRemovesAll(text: String)
    ensures forall n, j :: 0 <= n < |Words| ==> !MatchesAt(FilterText(text), Words[n], j)
  {
    WordsAreWords();
    var t1 := MaskWord(text, Words[0]);
    var t2 := MaskWord(t1, Words[1]);
    var t3 := MaskWord(t2, Words[2]);
    MaskWordRemovesAll(text, Words[0]);
    MaskWordRemovesAll(t1, Words[1]);
    MaskWordRemovesAll(t2, Words[2]);
    MaskingKeepsAbsence(t1, t2, Words[0]);
    MaskingKeepsAbsence(t2, t3, Words[0]);
    MaskingKeepsAbsence(t2, t3, Words[1]);
  }

  /** Text containing none of the words is returned as it is. */
  lemma FilterWithoutWords(text: String)
    requires forall n, j :: 0 <= n < |Words| ==> !MatchesAt(text, Words[n], j)
    ensures FilterText(text) == text
  {
    WordsAreWords();
    MaskWordWithoutMatch(text, Words[0]);
    MaskWordWithoutMatch(text, Words[1]);
    MaskWordWithoutMatch(text, Words[2]);
  }

  /** Filtering filtered text changes nothing. */
  lemma FilterIdempotent(text: String)
    ensures FilterText(FilterText(text)) == FilterText(text)
  {
    FilterRemovesAll(text);
    FilterWithoutWords(FilterText(text));
  }

  /**
   * Every character the filter changes lies inside an occurrence, in the
   * original text, of one of the listed words.
   */
  lemma FilterChangesOnlyWords(text: String)
    ensures forall i :: 0 <= i < |text| && FilterText(text)[i] != text[i] ==>
      exists n, j :: 0 <= n < |Words| && j <= i < j + |Words[n]| && MatchesAt(text, Words[n], j)
  {
    WordsAreWords();
    var t1 := MaskWord(text, Words[0]);
    var t2 := MaskWord(t1, Words[1]);
    var t3 := MaskWord(t2, Words[2]);
    MaskWordChangesOnlyMatches(text, Words[0]);
    MaskWordChangesOnlyMatches(t1, Words[1]);
    MaskWordChangesOnlyMatches(t2, Words[2]);
    forall i | 0 <= i < |text| && t3[i] != text[i]
      ensures exists n, j :: 0 <= n < |Words| && j <= i < j + |Words[n]| && MatchesAt(text, Words[n], j)
    {
      if t1[i] != text[i] {
        var j :| j <= i < j + |Words[0]| && MatchesAt(text, Words[0], j);
        assert 0 <= 0 < |Words|;
      } else if t2[i] != t1[i] {
        var j :| j <= i < j + |Words[1]| && MatchesAt(t1, Words[1], j);
        MatchSurvivesMasking(text, t1, Words[1], j);
        assert 0 <= 1 < |Words|;
      } else {
        assert t3[i] != t2[i];
        var j :| j <= i < j + |Words[2]| && MatchesAt(t2, Words[2], j);
        MatchSurvivesMasking(text, t2, Words[2], j);
        assert 0 <= 2 < |Words|;
      }
    }
  }

  /** `ProfanityFilter`: the number of chunks changed and the events sent downstream. */
  class ProfanityFilter {
    var filteredCount: nat
    var sent: seq<Event>

    constructor ()
      ensures filteredCount == 0 && sent == []
    {
      filteredCount := 0;
      sent := [];
    }

    /**
     * `process_event`: a response chunk is forwarded filtered, and counted
     * when filtering changed it; any other event is forwarded unchanged.
     */
    method ProcessEvent(event: Event)
      modifies this
      ensures event.LlmResponseChunk? ==> sent == old(sent) + [LlmResponseChunk(FilterText(event.text))]
      ensures event.LlmResponseChunk? ==>
        filteredCount == old(filteredCount) + (if FilterText(event.text) != event.text then 1 else 0)
      ensures !event.LlmResponseChunk? ==> sent == old(sent) + [event] && filteredCount == old(filteredCount)
    {
      if event.LlmResponseChunk? {
        var filtered := Filter(event.text);
        if filtered != event.text {
          filteredCount := filteredCount + 1;
        }
        sent := sent + [LlmResponseChunk(filtered)];
      } else {
        sent := sent + [event];
      }
    }
  }
}
