/**
 * The language detector that sits in front of the main agent: each caller
 * transcript is sent to an LLM that answers with a JSON object naming the
 * language; the node keeps the latest language and the history of detected
 * languages, and forwards every event unchanged.
 */
module Language {
  import opened Wrappers
  import opened Text
  import opened Tally
  import opened AgentEvents

  const DefaultLanguage: String := "english"

  /**
   * What the detection call produced, once parsed. `Unparseable` covers a
   * raising LLM call, a reply that is not a JSON object, and a `language`
   * value that is not a string; `Parsed` carries the `language` key (absent:
   * `None`) and whether the `confidence` value can be formatted as a
   * percentage in the log line that follows the update.
   */
  datatype Detection =
    | Unparseable
    | Parsed(language: Option<String>, confidenceFormats: bool)

  /** `result.get("language", "english").lower()`. */
  function DetectedName(language: Option<String>): (r: String)
    ensures language.None? ==> r == DefaultLanguage
    ensures language.Some? ==> r == Lower(language.value)
  {
    Lower(language.GetOr(DefaultLanguage))
  }

  /** The detector's state: `detected_language` and `language_history`. */
  datatype DetectorState = DetectorState(detected: String, history: seq<String>)

  /**
   * `_detect_language`: a parsed reply sets the language and appends it to
   * the history; any exception resets the language to "english". An
   * exception raised by the log line after the append keeps the appended
   * entry.
   */
  function DetectStep(st: DetectorState, d: Detection): (r: DetectorState)
    ensures d.Unparseable? ==> r == DetectorState(DefaultLanguage, st.history)
    ensures d.Parsed? ==> r.history == st.history + [DetectedName(d.language)]
    ensures d.Parsed? && d.confidenceFormats ==> r.detected == DetectedName(d.language)
    ensures d.Parsed? && !d.confidenceFormats ==> r.detected == DefaultLanguage
  {
    match d
    case Unparseable => DetectorState(DefaultLanguage, st.history)
    case Parsed(language, formats) =>
      var name := DetectedName(language);
      DetectorState(if formats then name else DefaultLanguage, st.history + [name])
  }

  /** The latest entry of the history is the language the last successful detection named. */
  lemma DetectionRecordsLanguage(st: DetectorState, language: Option<String>)
    ensures var r := DetectStep(st, Parsed(language, true));
      r.detected == r.history[|r.history| - 1] && |r.history| == |st.history| + 1
  {
  }

  /** Every recorded language is lower-case, if the history started so. */
  predicate AllLower(history: seq<String>) {
    forall i :: 0 <= i < |history| ==> Lower(history[i]) == history[i]
  }

  lemma LowerIdempotent(s: String)
    ensures Lower(Lower(s)) == Lower(s)
  {
  }

  lemma DetectKeepsLower(st: DetectorState, d: Detection)
    requires AllLower(st.history) && Lower(st.detected) == st.detected
    ensures AllLower(DetectStep(st, d).history)
    ensures Lower(DetectStep(st, d).detected) == DetectStep(st, d).detected
  {
    DefaultIsLower();
    if d.Parsed? {
      var name := DetectedName(d.language);
      LowerIdempotent(d.language.GetOr(DefaultLanguage));
      AllLowerAppend(st.history, name);
    }
  }

  lemma DefaultIsLower()
    ensures Lower(DefaultLanguage) == DefaultLanguage
  {
    var l := Lower(DefaultLanguage);
    forall i | 0 <= i < |DefaultLanguage| ensures l[i] == DefaultLanguage[i] {
      assert 'a' <= DefaultLanguage[i] <= 'z';
    }
  }

  lemma AllLowerAppend(history: seq<String>, name: String)
    requires AllLower(history) && Lower(name) == name
    ensures AllLower(history + [name])
  {
    var h := history + [name];
    forall i | 0 <= i < |h| ensures Lower(h[i]) == h[i] {
      if i < |history| {
        assert h[i] == history[i];
      }
    }
  }

  /**
   * `get_primary_language`: "english" for an empty history, otherwise the
   * most common entry, ties going to the one seen first.
   */
  function PrimaryLanguage(history: seq<String>): (r: String)
    ensures history == [] ==> r == DefaultLanguage
    ensures history != [] ==> r in history
    ensures forall i :: 0 <= i < |history| ==> Count(history, history[i]) <= Count(history, r)
    ensures history != [] ==> exists j :: (&& 0 <= j < |history| && history[j] == r
                                           && forall k :: 0 <= k < j ==> Count(history, history[k]) < Count(history, r))
  {
    if history == [] then DefaultLanguage else MostCommon(history)
  }

  /** A history holding one language only has that language as its primary one. */
  lemma {:induction false} PrimaryOfUniform(history: seq<String>, lang: String)
    requires history != [] && forall i :: 0 <= i < |history| ==> history[i] == lang
    ensures PrimaryLanguage(history) == lang
  {
    var r := PrimaryLanguage(history);
    assert r in history;
    var i :| 0 <= i < |history| && history[i] == r;
  }

  /** `LanguageDetector`: the detection state and the events sent downstream. */
  class LanguageDetector {
    var detectedLanguage: String
    var languageHistory: seq<String>
    var sent: seq<Event>

    constructor ()
      ensures detectedLanguage == DefaultLanguage && languageHistory == [] && sent == []
    {
      detectedLanguage := DefaultLanguage;
      languageHistory := [];
      sent := [];
    }

    function State(): DetectorState
      reads this
    {
      DetectorState(detectedLanguage, languageHistory)
    }

    /**
     * `process_event`: a caller transcript is run through detection, with
     * `detection` standing for the LLM's reply; every event, of any kind,
     * is then forwarded unchanged, exactly once.
     */
    method ProcessEvent(event: Event, detection: Detection)
      modifies this
      ensures sent == old(sent) + [event]
      ensures event.IsUserTranscript() ==> State() == DetectStep(old(State()), detection)
      ensures !event.IsUserTranscript() ==> State() == old(State())
    {
      if event.IsUserTranscript() {
        DetectLanguage(detection);
      }
      sent := sent + [event];
    }

    /** `_detect_language`. */
    method DetectLanguage(detection: Detection)
      modifies this
      ensures State() == DetectStep(old(State()), detection) && sent == old(sent)
    {
      match detection
      case Unparseable =>
        detectedLanguage := DefaultLanguage;
      case Parsed(language, formats) =>
        detectedLanguage := DetectedName(language);
        languageHistory := languageHistory + [detectedLanguage];
        if !formats {
          detectedLanguage := DefaultLanguage;
        }
    }

    /** `get_primary_language`. */
    function GetPrimaryLanguage(): String
      reads this
    {
      PrimaryLanguage(languageHistory)
    }
  }
}
