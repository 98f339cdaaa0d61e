/**
 * The emotion analyzer's backend: a diarized transcript's utterances are
 * merged where consecutive ones share (start, end, speaker), each merged
 * segment long enough is sent for emotion detection, and the response lists
 * the segments' results and the sorted distinct speakers.
 */
module Emotion {
  import opened Wrappers
  import opened Text
  import opened Ordering
  import Chunking

  /** Segments shorter than this many seconds are not sent for emotion detection. */
  const MinSegmentSeconds: real := 0.5

  /** One utterance of the diarized transcript; every field may be missing. */
  datatype Utterance = Utterance(start: Option<real>, end: Option<real>, speaker: Option<String>, text: Option<String>)

  /** The raw (start, end, speaker) triple, missing fields included as missing. */
  datatype Key = Key(start: Option<real>, end: Option<real>, speaker: Option<String>)

  function KeyOf(u: Utterance): Key {
    Key(u.start, u.end, u.speaker)
  }

  /** A merged segment: missing times become 0 and the speaker gets its label. */
  datatype Segment = Segment(start: real, end: real, speaker: String, text: String)

  /** "Speaker {speaker}", with "?" for a missing speaker. */
  function SpeakerLabel(speaker: Option<String>): (r: String)
    ensures StartsWith(r, "Speaker ")
    ensures r[|"Speaker "|..] == if speaker.Some? then speaker.value else "?"
  {
    "Speaker " + speaker.GetOr("?")
  }

  function TextOf(u: Utterance): String {
    u.text.GetOr("")
  }

  /** The segment an utterance opens. */
  function Open(u: Utterance): Segment {
    Segment(u.start.GetOr(0.0), u.end.GetOr(0.0), SpeakerLabel(u.speaker), TextOf(u))
  }

  /**
   * The merge loop's state: the segments so far and, for each, the key of
   * the utterance that opened it.
   */
  datatype Merged = Merged(segments: seq<Segment>, keys: seq<Key>)

  /** Each segment's times and speaker come from the key that opened it. */
  predicate Consistent(m: Merged) {
    && |m.segments| == |m.keys|
    && forall i :: 0 <= i < |m.segments| ==>
         && m.segments[i].start == m.keys[i].start.GetOr(0.0)
         && m.segments[i].end == m.keys[i].end.GetOr(0.0)
         && m.segments[i].speaker == SpeakerLabel(m.keys[i].speaker)
  }

  /**
   * One iteration: an utterance whose key equals the last opened key extends
   * the last segment's text; any other opens a new segment.
   */
  function MergeStep(m: Merged, u: Utterance): (r: Merged)
    requires |m.segments| == |m.keys|
    ensures |r.segments| == |r.keys|
  {
    var n := |m.segments|;
    if n > 0 && KeyOf(u) == m.keys[n - 1] then
      var last := m.segments[n - 1];
      Merged(m.segments[..n - 1] + [last.(text := last.text + TextOf(u))], m.keys)
    else
      Merged(m.segments + [Open(u)], m.keys + [KeyOf(u)])
  }

  /** The merge of a list of utterances, one iteration per utterance in order. */
  function Merge(utts: seq<Utterance>): (r: Merged)
    ensures |r.segments| == |r.keys|
    ensures |r.segments| <= |utts|
    ensures utts != [] ==> r.segments != [] && r.keys[|r.keys| - 1] == KeyOf(utts[|utts| - 1])
  {
    if utts == [] then Merged([], []) else MergeStep(Merge(utts[..|utts| - 1]), utts[|utts| - 1])
  }

  lemma MergeStepConsistent(m: Merged, u: Utterance)
    requires Consistent(m)
    ensures Consistent(MergeStep(m, u))
  {
    var n := |m.segments|;
    var r := MergeStep(m, u);
    if n > 0 && KeyOf(u) == m.keys[n - 1] {
      var last := m.segments[n - 1];
      assert r.segments == m.segments[..n - 1] + [last.(text := last.text + TextOf(u))];
      forall i | 0 <= i < n ensures r.segments[i].start == m.segments[i].start && r.segments[i].end == m.segments[i].end
        && r.segments[i].speaker == m.segments[i].speaker
      {
        if i < n - 1 {
          assert r.segments[i] == m.segments[i];
        }
      }
    } else {
      assert r.segments == m.segments + [Open(u)];
      assert r.keys == m.keys + [KeyOf(u)];
      forall i | 0 <= i < n ensures r.segments[i] == m.segments[i] && r.keys[i] == m.keys[i] {
      }
    }
  }

  /** Every segment's times and speaker label come from the utterance that opened it. */
  lemma {:induction false} MergeConsistent(utts: seq<Utterance>)
    ensures Consistent(Merge(utts))
    decreases |utts|
  {
    if utts != [] {
      MergeConsistent(utts[..|utts| - 1]);
      MergeStepConsistent(Merge(utts[..|utts| - 1]), utts[|utts| - 1]);
    }
  }

  /** All texts, concatenated in order. */
  function SegmentTexts(segs: seq<Segment>): String {
    if segs == [] then [] else SegmentTexts(segs[..|segs| - 1]) + segs[|segs| - 1].text
  }

  function UtteranceTexts(utts: seq<Utterance>): String {
    if utts == [] then [] else UtteranceTexts(utts[..|utts| - 1]) + TextOf(utts[|utts| - 1])
  }

  lemma MergeStepText(m: Merged, u: Utterance)
    requires |m.segments| == |m.keys|
    ensures SegmentTexts(MergeStep(m, u).segments) == SegmentTexts(m.segments) + TextOf(u)
  {
    var n := |m.segments|;
    var r := MergeStep(m, u);
    if n > 0 && KeyOf(u) == m.keys[n - 1] {
      var last := m.segments[n - 1];
      var front := m.segments[..n - 1];
      assert r.segments == front + [last.(text := last.text + TextOf(u))];
      assert r.segments[..n - 1] == front;
      assert m.segments[..n - 1] == front;
    } else {
      assert r.segments == m.segments + [Open(u)];
      assert r.segments[..n] == m.segments;
    }
  }

  /** Merging loses and reorders no text. */
  lemma {:induction false} MergeKeepsText(utts: seq<Utterance>)
    ensures SegmentTexts(Merge(utts).segments) == UtteranceTexts(utts)
    decreases |utts|
  {
    if utts != [] {
      var init := utts[..|utts| - 1];
      MergeKeepsText(init);
      MergeStepText(Merge(init), utts[|utts| - 1]);
    }
  }

  predicate AdjacentDiffer(ks: seq<Key>) {
    forall i :: 0 <= i < |ks| - 1 ==> ks[i] != ks[i + 1]
  }

  lemma MergeStepKeys(m: Merged, u: Utterance)
    requires |m.segments| == |m.keys| && AdjacentDiffer(m.keys)
    ensures AdjacentDiffer(MergeStep(m, u).keys)
    ensures |MergeStep(m, u).segments| ==
      |m.segments| + (if m.segments != [] && KeyOf(u) == m.keys[|m.keys| - 1] then 0 else 1)
  {
  }

  /** Consecutive segments were opened by different keys. */
  lemma {:induction false} MergeAdjacentKeysDiffer(utts: seq<Utterance>)
    ensures AdjacentDiffer(Merge(utts).keys)
    decreases |utts|
  {
    if utts != [] {
      var init := utts[..|utts| - 1];
      MergeAdjacentKeysDiffer(init);
      MergeStepKeys(Merge(init), utts[|utts| - 1]);
    }
  }

  /** The number of positions where the key differs from the previous utterance's (the first counts). */
  function KeyChanges(utts: seq<Utterance>): nat {
    if |utts| <= 1 then |utts|
    else KeyChanges(utts[..|utts| - 1]) + (if KeyOf(utts[|utts| - 1]) != KeyOf(utts[|utts| - 2]) then 1 else 0)
  }

  /** A new segment starts exactly where the key changes. */
  lemma {:induction false} MergeCountsKeyChanges(utts: seq<Utterance>)
    ensures |Merge(utts).segments| == KeyChanges(utts)
    decreases |utts|
  {
    if utts != [] {
      var init := utts[..|utts| - 1];
      var u := utts[|utts| - 1];
      var m := Merge(init);
      MergeCountsKeyChanges(init);
      assert Merge(utts) == MergeStep(m, u);
      if |utts| > 1 {
        assert init[|init| - 1] == utts[|utts| - 2];
        assert m.segments != [] && m.keys[|m.keys| - 1] == KeyOf(utts[|utts| - 2]);
        assert KeyChanges(utts) == KeyChanges(init) + (if KeyOf(u) != KeyOf(utts[|utts| - 2]) then 1 else 0);
      } else {
        assert init == [];
      }
    }
  }

  /** `merged`, built by the loop in `analyze`. */
  method MergeUtterances(utts: seq<Utterance>) returns (merged: seq<Segment>)
    ensures merged == Merge(utts).segments
  {
    merged := [];
    var prevKey: Option<Key> := None;
    ghost var keys: seq<Key> := [];
    var i := 0;
    while i < |utts|
      invariant 0 <= i <= |utts|
      invariant Merge(utts[..i]) == Merged(merged, keys)
      invariant prevKey == LastKey(keys)
    {
      merged, keys, prevKey := AddUtterance(merged, keys, prevKey, utts, i);
      i := i + 1;
    }
    assert utts[..i] == utts;
  }

  function LastKey(keys: seq<Key>): Option<Key> {
    if keys == [] then None else Some(keys[|keys| - 1])
  }

  lemma MergeSnoc(utts: seq<Utterance>, i: nat)
    requires i < |utts|
    ensures Merge(utts[..i + 1]) == MergeStep(Merge(utts[..i]), utts[i])
  {
    assert utts[..i + 1][..i] == utts[..i];
  }

  /** One turn of the loop in `analyze`: extend the open segment or open a new one. */
  method AddUtterance(merged: seq<Segment>, ghost keys: seq<Key>, prevKey: Option<Key>, utts: seq<Utterance>, i: nat)
    returns (merged': seq<Segment>, ghost keys': seq<Key>, prevKey': Option<Key>)
    requires i < |utts| && Merge(utts[..i]) == Merged(merged, keys)
    requires prevKey == LastKey(keys)
    ensures Merge(utts[..i + 1]) == Merged(merged', keys')
    ensures prevKey' == LastKey(keys')
  {
    MergeSnoc(utts, i);
    var u := utts[i];
    var key := KeyOf(u);
    if merged != [] && Some(key) == prevKey {
      var last := merged[|merged| - 1];
      merged' := merged[..|merged| - 1] + [last.(text := last.text + TextOf(u))];
      keys' := keys;
      prevKey' := prevKey;
    } else {
      merged' := merged + [Open(u)];
      keys' := keys + [key];
      prevKey' := Some(key);
    }
  }

  /** The detected emotion scores of one segment. */
  type Emotions = map<String, real>

  /**
   * The emotion request's outcome: a failure (the request, the reply or the
   * logging of its top emotion raised), or the reply's `emotions` value,
   * missing when the key is absent.
   */
  type EmotionReply = Result<Option<Emotions>, String>

  /** One entry of the response's `segments`. */
  datatype SegmentResult = SegmentResult(speaker: String, start: real, end: real, text: String,
                                         emotions: Option<Emotions>, skipped: bool)

  /** What `process_utterance` returns: the result together with its `index` key. */
  datatype IndexedResult = IndexedResult(index: nat, result: SegmentResult)

  predicate TooShort(seg: Segment) {
    seg.end - seg.start < MinSegmentSeconds
  }

  /**
   * `process_utterance`: a short segment is skipped with no emotions and no
   * request; otherwise the reply's emotions (empty when absent, none when the
   * request failed) are recorded. The flag says whether a request was made.
   */
  function ProcessUtterance(idx: nat, seg: Segment, reply: EmotionReply): (r: (IndexedResult, bool))
    ensures r.0.index == idx && r.1 == !TooShort(seg) && r.0.result.skipped == TooShort(seg)
    ensures TooShort(seg) ==> r.0.result.emotions.None?
    ensures !TooShort(seg) && reply.Failure? ==> r.0.result.emotions.None?
    ensures !TooShort(seg) && reply.Success? ==> r.0.result.emotions == Some(reply.value.GetOr(map[]))
    ensures r.0.result.text == seg.text && r.0.result.speaker == seg.speaker
    ensures r.0.result.start == seg.start && r.0.result.end == seg.end
  {
    if TooShort(seg) then
      (IndexedResult(idx, SegmentResult(seg.speaker, seg.start, seg.end, seg.text, None, true)), false)
    else
      var emotions := if reply.Failure? then None else Some(reply.value.GetOr(map[]));
      (IndexedResult(idx, SegmentResult(seg.speaker, seg.start, seg.end, seg.text, emotions, false)), true)
  }

  /** The transcription service's reply: `transcription` and `utterances`, either possibly absent. */
  datatype Diarized = Diarized(transcription: Option<String>, utterances: Option<seq<Utterance>>)

  /** The HTTP response of `/api/analyze`. */
  datatype AnalyzeResponse =
    | ErrorResponse(status: nat, error: String)
    | Analysis(transcription: String, speakers: seq<String>, segments: seq<SegmentResult>)

  const NoUtterancesError: String := "No utterances found — audio may be too short or silent."

  /** The results of every segment, in segment order, with the `index` key dropped. */
  function Results(segs: seq<Segment>, replies: nat -> EmotionReply): (r: seq<SegmentResult>)
    ensures |r| == |segs|
    ensures forall i :: 0 <= i < |segs| ==> r[i] == ProcessUtterance(i, segs[i], replies(i)).0.result
  {
    seq(|segs|, i requires 0 <= i < |segs| => ProcessUtterance(i, segs[i], replies(i)).0.result)
  }

  function SegmentSpeakers(segs: seq<Segment>): (r: seq<String>)
    ensures |r| == |segs| && forall i :: 0 <= i < |segs| ==> r[i] == segs[i].speaker
  {
    if segs == [] then [] else SegmentSpeakers(segs[..|segs| - 1]) + [segs[|segs| - 1].speaker]
  }

  /**
   * `analyze`, with the uploaded file, the transcription call, the audio
   * decoding and the emotion calls as inputs: the checks in order, then the
   * merge, then one result per segment and the sorted distinct speakers.
   */
  function AnalyzeSpec(apiKey: String, upload: Option<seq<Chunking.Byte>>, diarized: Result<Diarized, String>,
                       decodeError: Option<String>, replies: nat -> EmotionReply): (r: AnalyzeResponse)
  {
    if apiKey == [] then ErrorResponse(500, "SMALLEST_API_KEY not set")
    else if upload.None? then ErrorResponse(400, "No audio file provided")
    else if diarized.Failure? then ErrorResponse(502, "Transcription failed: " + diarized.error)
    else
      var utts := diarized.value.utterances.GetOr([]);
      if utts == [] then ErrorResponse(400, NoUtterancesError)
      else
        if decodeError.Some? then ErrorResponse(400, "Could not decode audio: " + decodeError.value)
        else Report(diarized.value, replies)
  }

  /** The successful response: the merged segments' results and their sorted distinct speakers. */
  function Report(d: Diarized, replies: nat -> EmotionReply): AnalyzeResponse {
    var segs := Merge(d.utterances.GetOr([])).segments;
    Analysis(d.transcription.GetOr(""), SortDistinct(SegmentSpeakers(segs)), Results(segs, replies))
  }

  /** The input checks and the status each failure gets. */
  lemma AnalyzeErrors(apiKey: String, upload: Option<seq<Chunking.Byte>>, diarized: Result<Diarized, String>,
                      decodeError: Option<String>, replies: nat -> EmotionReply)
    ensures var r := AnalyzeSpec(apiKey, upload, diarized, decodeError, replies);
      && (apiKey == [] ==> r.ErrorResponse? && r.status == 500)
      && (apiKey != [] && upload.None? ==> r.ErrorResponse? && r.status == 400)
      && (apiKey != [] && upload.Some? && diarized.Success? && diarized.value.utterances.GetOr([]) == []
          ==> r == ErrorResponse(400, NoUtterancesError))
      && (r.Analysis? <==>
            (apiKey != [] && upload.Some? && diarized.Success?
             && diarized.value.utterances.GetOr([]) != [] && decodeError.None?))
  {
  }

  /**
   * A successful analysis has one result per merged segment, in segment
   * order, and no more than there were utterances.
   */
  lemma ReportSegments(d: Diarized, replies: nat -> EmotionReply)
    ensures var utts := d.utterances.GetOr([]);
      var segs := Merge(utts).segments;
      var results := Report(d, replies).segments;
      && |results| == |segs| <= |utts|
      && forall i :: 0 <= i < |segs| ==>
           results[i].text == segs[i].text && results[i].speaker == segs[i].speaker
           && results[i].skipped == TooShort(segs[i])
  {
  }

  /** The response's speakers are sorted, each listed once, and are exactly the segments' speakers. */
  lemma SpeakersListed(segs: seq<Segment>)
    ensures var r := SortDistinct(SegmentSpeakers(segs));
      && Increasing(r)
      && (forall i, j :: 0 <= i < j < |r| ==> r[i] != r[j])
      && (forall s :: s in r <==> exists i :: 0 <= i < |segs| && segs[i].speaker == s)
  {
    var sp := SegmentSpeakers(segs);
    SortDistinctOnce(sp);
    forall s ensures s in sp <==> exists i :: 0 <= i < |segs| && segs[i].speaker == s {
      if s in sp {
        var i :| 0 <= i < |sp| && sp[i] == s;
        assert segs[i].speaker == s;
      }
    }
  }

  /**
   * The loop in `analyze` over the merged segments: it records each
   * segment's speaker and fills the results by index; the `index` keys are
   * then dropped.
   */
  method ProcessSegments(segs: seq<Segment>, replies: nat -> EmotionReply)
    returns (speakersSeen: seq<String>, results: seq<SegmentResult>)
    ensures speakersSeen == SegmentSpeakers(segs)
    ensures results == Results(segs, replies)
  {
    speakersSeen := [];
    var indexed: seq<IndexedResult> := [];
    var i := 0;
    while i < |segs|
      invariant 0 <= i <= |segs|
      invariant speakersSeen == SegmentSpeakers(segs[..i])
      invariant |indexed| == i
      invariant forall k :: 0 <= k < i ==> indexed[k] == ProcessUtterance(k, segs[k], replies(k)).0
    {
      assert segs[..i + 1][..i] == segs[..i];
      speakersSeen := speakersSeen + [segs[i].speaker];
      var (res, _) := ProcessUtterance(i, segs[i], replies(i));
      indexed := indexed + [res];
      i := i + 1;
    }
    assert segs[..i] == segs;
    results := seq(|indexed|, k requires 0 <= k < |indexed| => indexed[k].result);
  }

  /** `analyze`: the checks in order, the merge loop, then the per-segment loop. */
  method Analyze(apiKey: String, upload: Option<seq<Chunking.Byte>>, diarized: Result<Diarized, String>,
                 decodeError: Option<String>, replies: nat -> EmotionReply) returns (r: AnalyzeResponse)
    ensures r == AnalyzeSpec(apiKey, upload, diarized, decodeError, replies)
  {
    if apiKey == [] {
      return ErrorResponse(500, "SMALLEST_API_KEY not set");
    }
    if upload.None? {
      return ErrorResponse(400, "No audio file provided");
    }
    if diarized.Failure? {
      return ErrorResponse(502, "Transcription failed: " + diarized.error);
    }
    var utts := diarized.value.utterances.GetOr([]);
    if utts == [] {
      return ErrorResponse(400, NoUtterancesError);
    }
    var segs := MergeUtterances(utts);
    if decodeError.Some? {
      return ErrorResponse(400, "Could not decode audio: " + decodeError.value);
    }
    var speakersSeen, results := ProcessSegments(segs, replies);
    r := Analysis(diarized.value.transcription.GetOr(""), SortDistinct(speakersSeen), results);
    assert r == Report(diarized.value, replies);
  }
}
