/**
 * The YouTube summarizer's URL handling: the video id is taken from the URL
 * by the first of two regular expressions that matches, and names the
 * files the run writes.
 */
module YouTube {
  import opened Wrappers
  import opened Text

  /** The length of a video id: the `{11}` of both patterns. */
  const IdLength: nat := 11

  /** `[a-zA-Z0-9_-]`. */
  predicate IsIdChar(c: char) {
    ('a' <= c <= 'z') || ('A' <= c <= 'Z') || ('0' <= c <= '9') || c == '_' || c == '-'
  }

  predicate IsVideoId(id: String) {
    |id| == IdLength && forall k :: 0 <= k < |id| ==> IsIdChar(id[k])
  }

  /** Eleven id characters start at position `q`; any that follow are not looked at. */
  predicate IdRunAt(url: String, q: int) {
    0 <= q && q + IdLength <= |url| && IsVideoId(url[q..q + IdLength])
  }

  /** The alternatives of the first pattern, in the order the regular expression tries them. */
  const FirstPattern: seq<String> := ["youtube.com/watch?v=", "youtu.be/", "youtube.com/embed/"]

  /** The single prefix of the second pattern. */
  const SecondPattern: seq<String> := ["youtube.com/shorts/"]

  /**
   * The pattern, made of the alternatives `alts` followed by eleven id
   * characters, matched at position `p`: the id of the first alternative
   * that fits.
   */
  function MatchAt(url: String, alts: seq<String>, p: int): (r: Option<String>)
    ensures r.Some? ==> IsVideoId(r.value)
    ensures r.Some? ==> exists a :: a in alts && OccursAt(url, a, p) && IdRunAt(url, p + |a|)
                                 && r.value == url[p + |a|..p + |a| + IdLength]
    ensures r.None? ==> forall a :: a in alts ==> !(OccursAt(url, a, p) && IdRunAt(url, p + |a|))
  {
    if alts == [] then None
    else if OccursAt(url, alts[0], p) && IdRunAt(url, p + |alts[0]|) then
      var q := p + |alts[0]|;
      Some(url[q..q + IdLength])
    else
      var r := MatchAt(url, alts[1..], p);
      assert forall a :: a in alts[1..] ==> a in alts;
      r
  }

  /** `re.search`: the leftmost position at or after `p` where the pattern matches. */
  function Search(url: String, alts: seq<String>, p: nat): (r: Option<(nat, String)>)
    ensures r.Some? ==> p <= r.value.0 <= |url| && MatchAt(url, alts, r.value.0) == Some(r.value.1)
    ensures r.Some? ==> forall q :: p <= q < r.value.0 ==> MatchAt(url, alts, q).None?
    ensures r.None? ==> forall q :: p <= q <= |url| ==> MatchAt(url, alts, q).None?
    decreases |url| - p
  {
    if p > |url| then None
    else
      match MatchAt(url, alts, p)
      case Some(id) => Some((p, id))
      case None => Search(url, alts, p + 1)
  }

  function NoIdMessage(url: String): String {
    "Could not extract video ID from URL: " + url
  }

  /**
   * `extract_video_id`: the first pattern's leftmost match, else the second
   * pattern's, else a `ValueError`.
   */
  function ExtractVideoId(url: String): (r: Result<String, String>)
    ensures r.Success? ==> IsVideoId(r.value)
    ensures r.Failure? ==> r.error == NoIdMessage(url)
  {
    match Search(url, FirstPattern, 0)
    case Some((_, id)) => Success(id)
    case None =>
      match Search(url, SecondPattern, 0)
      case Some((_, id)) => Success(id)
      case None => Failure(NoIdMessage(url))
  }

  /** The search returns the first position that matches. */
  lemma {:induction false} SearchFindsFirst(url: String, alts: seq<String>, p: nat, m: nat)
    requires p <= m <= |url| && MatchAt(url, alts, m).Some?
    requires forall q :: p <= q < m ==> MatchAt(url, alts, q).None?
    ensures Search(url, alts, p) == Some((m, MatchAt(url, alts, m).value))
    decreases m - p
  {
    if p < m {
      SearchFindsFirst(url, alts, p + 1, m);
    }
  }

  /** The id comes from the leftmost match of the first pattern, wherever the second matches. */
  lemma ExtractLeftmostFirst(url: String, p: nat)
    requires p <= |url| && MatchAt(url, FirstPattern, p).Some?
    requires forall q :: 0 <= q < p ==> MatchAt(url, FirstPattern, q).None?
    ensures ExtractVideoId(url) == Success(MatchAt(url, FirstPattern, p).value)
  {
    SearchFindsFirst(url, FirstPattern, 0, p);
  }

  /** Only when the first pattern matches nowhere does the second pattern's leftmost match count. */
  lemma ExtractLeftmostSecond(url: String, p: nat)
    requires forall q :: 0 <= q <= |url| ==> MatchAt(url, FirstPattern, q).None?
    requires p <= |url| && MatchAt(url, SecondPattern, p).Some?
    requires forall q :: 0 <= q < p ==> MatchAt(url, SecondPattern, q).None?
    ensures ExtractVideoId(url) == Success(MatchAt(url, SecondPattern, p).value)
  {
    SearchFindsNothing(url, FirstPattern);
    SearchFindsFirst(url, SecondPattern, 0, p);
  }

  /** Where the pattern matches nowhere, the search finds nothing. */
  lemma SearchFindsNothing(url: String, alts: seq<String>)
    requires forall q :: 0 <= q <= |url| ==> MatchAt(url, alts, q).None?
    ensures Search(url, alts, 0).None?
  {
  }

  /** Extraction fails exactly when neither pattern matches anywhere. */
  lemma ExtractFails(url: String)
    ensures ExtractVideoId(url).Failure? <==>
      forall q :: 0 <= q <= |url| ==> MatchAt(url, FirstPattern, q).None? && MatchAt(url, SecondPattern, q).None?
  {
    var s1 := Search(url, FirstPattern, 0);
    if s1.Some? {
      assert MatchAt(url, FirstPattern, s1.value.0).Some?;
    } else {
      var s2 := Search(url, SecondPattern, 0);
      if s2.Some? {
        assert MatchAt(url, SecondPattern, s2.value.0).Some?;
      }
    }
  }

  /** A pattern whose every alternative starts with `y` cannot match where the URL has no `y`. */
  lemma NoMatchWithoutY(url: String, alts: seq<String>, p: nat)
    requires forall a :: a in alts ==> a != [] && a[0] == 'y'
    requires p < |url| && url[p] != 'y'
    ensures MatchAt(url, alts, p).None?
  {
    forall a | a in alts && p + |a| <= |url| ensures url[p..p + |a|] != a {
      assert url[p..p + |a|][0] == url[p];
    }
  }

  /** An alternative followed by an id matches, giving that id. */
  lemma MatchAfterAlternative(url: String, alts: seq<String>, p: nat, id: String)
    requires alts != [] && IsVideoId(id)
    requires p + |alts[0]| + |id| <= |url|
    requires url[p..p + |alts[0]|] == alts[0] && url[p + |alts[0]|..p + |alts[0]| + |id|] == id
    ensures MatchAt(url, alts, p) == Some(id)
  {
  }

  const Scheme: String := "https://"

  /** The link written into the summary file: "https://youtube.com/watch?v=" and the id. */
  function WatchLink(id: String): String {
    Scheme + FirstPattern[0] + id
  }

  /** The watch link of a video id gives that id back. */
  lemma WatchLinkRoundTrip(id: String)
    requires IsVideoId(id)
    ensures ExtractVideoId(WatchLink(id)) == Success(id)
  {
    SchemeHasNoY();
    PrefixedIdRoundTrip(Scheme, FirstPattern, id, []);
    assert WatchLink(id) + [] == WatchLink(id);
  }

  lemma SchemeHasNoY()
    ensures forall q :: 0 <= q < |Scheme| ==> Scheme[q] != 'y'
  {
  }

  lemma FirstPatternStartsWithY()
    ensures forall a :: a in FirstPattern ==> a != [] && a[0] == 'y'
  {
  }

  /**
   * `scheme + "youtube.com/watch?v=" + id + rest` extracts to `id` when the
   * scheme holds no `y`, whatever follows: further id characters are cut
   * off, and a later match elsewhere in the URL is not looked at.
   */
  lemma PrefixedIdRoundTrip(scheme: String, alts: seq<String>, id: String, rest: String)
    requires alts == FirstPattern && IsVideoId(id)
    requires forall q :: 0 <= q < |scheme| ==> scheme[q] != 'y'
    ensures ExtractVideoId(scheme + alts[0] + id + rest) == Success(id)
  {
    var alt := alts[0];
    var url := scheme + alt + id + rest;
    var p := |scheme|;
    FirstPatternStartsWithY();
    forall q | 0 <= q < p ensures MatchAt(url, alts, q).None? {
      assert url[q] == scheme[q];
      NoMatchWithoutY(url, alts, q);
    }
    assert url[p..p + |alt|] == alt;
    assert url[p + |alt|..p + |alt| + |id|] == id;
    MatchAfterAlternative(url, alts, p, id);
    ExtractLeftmostFirst(url, p);
  }

  /** The files a run writes: the audio, the transcript and the summary. */
  datatype OutputFiles = OutputFiles(audio: String, transcript: String, summary: String)

  function OutputFilesOf(id: String): (r: OutputFiles)
    ensures StartsWith(r.audio, id) && StartsWith(r.transcript, id) && StartsWith(r.summary, id)
  {
    OutputFiles(id + ".mp3", id + "_transcript.txt", id + "_summary.md")
  }

  /**
   * The three names differ from each other, and none holds a path
   * separator, so every file lands in the working directory.
   */
  lemma OutputFilesSafe(id: String)
    requires IsVideoId(id)
    ensures var f := OutputFilesOf(id);
      f.audio != f.transcript && f.audio != f.summary && f.transcript != f.summary
    ensures var f := OutputFilesOf(id);
      '/' !in f.audio && '/' !in f.transcript && '/' !in f.summary
  {
    var f := OutputFilesOf(id);
    assert f.audio[IdLength] == '.' && f.transcript[IdLength] == '_' && f.summary[IdLength] == '_';
    assert f.transcript[IdLength + 1] == 't' && f.summary[IdLength + 1] == 's';
    assert forall k :: 0 <= k < |id| ==> id[k] != '/';
    NoSlashAfter(id, ".mp3");
    NoSlashAfter(id, "_transcript.txt");
    NoSlashAfter(id, "_summary.md");
  }

  lemma NoSlashAfter(id: String, suffix: String)
    requires forall k :: 0 <= k < |id| ==> id[k] != '/'
    requires '/' !in suffix
    ensures '/' !in id + suffix
  {
    forall k | 0 <= k < |id + suffix| ensures (id + suffix)[k] != '/' {
      if k >= |id| {
        assert (id + suffix)[k] == suffix[k - |id|];
      }
    }
  }

  /** The summary file: a title, the watch link, then the summary text. */
  function SummaryDocument(id: String, summary: String): String {
    SummaryTitle + "**Video:** " + WatchLink(id) + "\n\n" + summary
  }

  const SummaryTitle: String := "# YouTube Video Summary\n\n"

  /**
   * The summary file opens with its title, holds the video's watch link, and
   * ends with the summary text exactly as the model wrote it.
   */
  lemma SummaryDocumentParts(id: String, summary: String)
    ensures var doc := SummaryDocument(id, summary);
      && StartsWith(doc, SummaryTitle)
      && Contains(doc, WatchLink(id))
      && |doc| >= |summary| && doc[|doc| - |summary|..] == summary
  {
    var doc := SummaryDocument(id, summary);
    var j := |SummaryTitle + "**Video:** "|;
    assert doc[j..j + |WatchLink(id)|] == WatchLink(id);
    ContainsAt(doc, WatchLink(id), j);
  }
}
