/**
 * The Jarvis assistant's state machine. Final transcripts from the STT
 * stream either wake it (LISTENING) or are added to the query being
 * captured (CAPTURING); a versioned silence timer ends the capture and sends
 * the query to the LLM, whose reply is spoken before capture resumes.
 *
 * Clock readings are milliseconds passed in by the caller; the LLM is a
 * function of the query and the history; a failing LLM or TTS call is an
 * outcome passed in as well. The timer task itself is not modelled: a
 * silence check is a step taken with the version it was armed with.
 */
module Jarvis {
  import opened Wrappers
  import opened Text
  import opened JarvisLlm

  datatype Phase = Listening | Capturing | Processing

  const WakeWord: String := "jarvis"
  /** Five seconds of silence end the capture. */
  const SilenceTimeout: int := 5000
  /** The silence check accepts 0.1 s of early firing. */
  const SilenceMargin: int := 100
  /** After a minute without a conversation the context is dropped. */
  const ConversationTimeout: int := 60000

  /** One STT message: its transcript (`""` when absent) and its `is_final` flag. */
  datatype SttMessage = SttMessage(transcript: String, isFinal: bool)

  /** A reply as `get_response` produces it: STOP, or some text to speak. */
  type SpokenOrStop = r: Reply | r.isStop || r.text.Some? witness Reply(None, true)

  /** How the outside calls made while processing a query ended. */
  datatype CallOutcome = Completed | LlmRaised | TtsRaised

  /** The fields of `JarvisAssistant` that its handlers read and write. */
  datatype Assistant = Assistant(
    phase: Phase,
    queryBuffer: seq<String>,
    history: seq<Message>,
    lastTranscriptTime: int,
    lastConversationTime: int,
    jarvisSpeaking: bool,
    timerVersion: nat)

  function Initial(): Assistant {
    Assistant(Listening, [], [], 0, 0, false, 0)
  }

  /** `transcript.lower().split("jarvis", 1)[-1].strip()`. */
  function AfterWakeWord(t: String): (after: String)
    ensures after == [] || Trimmed(after)
  {
    var rest := AfterFirst(Lower(t));
    StripTrimmed(rest);
    Strip(rest)
  }

  /** The text after the first "jarvis", or all of it when there is none. */
  function AfterFirst(lt: String): String {
    match IndexOf(lt, WakeWord)
    case Some(j) => lt[j + |WakeWord|..]
    case None => lt
  }

  lemma StripTrimmed(s: String)
    ensures Strip(s) == [] || Trimmed(Strip(s))
  {
  }

  /** When the wake word is present, the captured text is what follows its first occurrence, stripped. */
  lemma AfterFirstWakeWord(t: String)
    requires Contains(Lower(t), WakeWord)
    ensures exists j :: (&& OccursAt(Lower(t), WakeWord, j)
                         && (forall k :: 0 <= k < j ==> !OccursAt(Lower(t), WakeWord, k))
                         && AfterWakeWord(t) == Strip(Lower(t)[j + |WakeWord|..]))
  {
    var j := IndexOf(Lower(t), WakeWord).value;
    assert OccursAt(Lower(t), WakeWord, j);
  }

  /** `e` ends a match of the pattern `^.*jarvis`: a "jarvis" with no line break before its end. */
  predicate PrefixMatch(lt: String, e: int) {
    |WakeWord| <= e <= |lt| && OccursAt(lt, WakeWord, e - |WakeWord|) && '\n' !in lt[..e]
  }

  function FirstLineEnd(s: String): (k: nat)
    ensures k <= |s| && '\n' !in s[..k]
    ensures k < |s| ==> s[k] == '\n'
  {
    if '\n' in s then FirstIndex(s, '\n') else |s|
  }

  /** Where the greedy `^.*jarvis` match ends: the longest match, or 0 when there is none. */
  function CaptureCut(lt: String): (e: nat)
    ensures e == 0 || PrefixMatch(lt, e)
    ensures forall e' :: PrefixMatch(lt, e') ==> e' <= e
  {
    CutIsMatch(lt);
    forall e' | PrefixMatch(lt, e') ensures e' <= LastCut(lt) {
      CutIsLongest(lt, e');
    }
    LastCut(lt)
  }

  /** The end of the last "jarvis" on the first line, or 0. */
  function LastCut(lt: String): nat {
    var line := lt[..FirstLineEnd(lt)];
    match LastIndexOf(line, WakeWord)
    case Some(j) => j + |WakeWord|
    case None => 0
  }

  lemma CutIsMatch(lt: String)
    ensures LastCut(lt) == 0 || PrefixMatch(lt, LastCut(lt))
  {
    var k := FirstLineEnd(lt);
    var r := LastIndexOf(lt[..k], WakeWord);
    if r.Some? {
      OnFirstLine(lt, k, WakeWord, r.value);
    }
  }

  lemma CutIsLongest(lt: String, e: int)
    requires PrefixMatch(lt, e)
    ensures e <= LastCut(lt)
  {
    var k := FirstLineEnd(lt);
    WithinFirstLine(lt, k, WakeWord, e);
  }

  /** A match inside the first line is a match of the whole text with no line break before its end. */
  lemma OnFirstLine(lt: String, k: nat, w: String, j: nat)
    requires k <= |lt| && '\n' !in lt[..k] && OccursAt(lt[..k], w, j)
    ensures OccursAt(lt, w, j) && '\n' !in lt[..j + |w|]
  {
    var m := j + |w|;
    assert lt[j..m] == lt[..k][j..m];
    forall i | 0 <= i < m
      ensures lt[..m][i] != '\n'
    {
      assert lt[..m][i] == lt[..k][i];
    }
  }

  /** A match with no line break before its end lies inside the first line. */
  lemma WithinFirstLine(lt: String, k: nat, w: String, e: int)
    requires k <= |lt| && (k < |lt| ==> lt[k] == '\n')
    requires |w| <= e <= |lt| && OccursAt(lt, w, e - |w|) && '\n' !in lt[..e]
    ensures e <= k && OccursAt(lt[..k], w, e - |w|)
  {
    forall i | 0 <= i < e
      ensures lt[i] != '\n'
    {
      assert lt[..e][i] == lt[i];
    }
    assert e <= k;
    assert lt[..k][e - |w|..e] == lt[e - |w|..e];
  }

  /** `_handle_capture`'s cleaning: drop the longest lowercased prefix ending in "jarvis" on the first line, then strip. */
  function CaptureClean(t: String): (clean: String)
    ensures clean == [] || Trimmed(clean)
  {
    var lt := Lower(t);
    Strip(lt[CaptureCut(lt)..])
  }

  /** `_restart_timer`: a new version, so that every earlier check is stale. */
  function Restarted(a: Assistant): (r: Assistant)
    ensures r.timerVersion > a.timerVersion
    ensures r.(timerVersion := a.timerVersion) == a
  {
    a.(timerVersion := a.timerVersion + 1)
  }

  /** `_handle_wake_word`. */
  function WakeWordStep(a: Assistant, t: String, now: int): (r: Assistant)
    ensures !Contains(Lower(t), WakeWord) ==> r == a
    ensures Contains(Lower(t), WakeWord) ==>
      && r.phase == Capturing && r.history == [] && !r.jarvisSpeaking == !a.jarvisSpeaking
      && r.queryBuffer == (if AfterWakeWord(t) == [] then [] else [AfterWakeWord(t)])
      && r.lastTranscriptTime == now && r.lastConversationTime == now
      && r.timerVersion > a.timerVersion
  {
    if !Contains(Lower(t), WakeWord) then a
    else
      var after := AfterWakeWord(t);
      Restarted(a.(phase := Capturing, queryBuffer := if after == [] then [] else [after], history := [],
                   lastTranscriptTime := now, lastConversationTime := now))
  }

  /** `_handle_capture`. */
  function CaptureStep(a: Assistant, t: String, now: int): (r: Assistant)
    ensures r.phase == a.phase && r.history == a.history && r.jarvisSpeaking == a.jarvisSpeaking
    ensures CaptureClean(t) == [] ==> r.queryBuffer == a.queryBuffer
    ensures CaptureClean(t) != [] ==> r.queryBuffer == a.queryBuffer + [CaptureClean(t)]
    ensures r.lastTranscriptTime == now && r.timerVersion > a.timerVersion
  {
    var clean := CaptureClean(t);
    Restarted(a.(queryBuffer := if clean == [] then a.queryBuffer else a.queryBuffer + [clean], lastTranscriptTime := now))
  }

  /** The body of `receive_transcripts` for one message. */
  function TranscriptStep(a: Assistant, msg: SttMessage, now: int): (r: Assistant)
    ensures !msg.isFinal || Strip(msg.transcript) == [] || a.phase == Processing ==> r == a
    ensures msg.isFinal && Strip(msg.transcript) != [] && a.phase == Listening ==> r == WakeWordStep(a, Strip(msg.transcript), now)
    ensures msg.isFinal && Strip(msg.transcript) != [] && a.phase == Capturing ==> r == CaptureStep(a, Strip(msg.transcript), now)
  {
    var t := Strip(msg.transcript);
    if !msg.isFinal || t == [] then a
    else match a.phase
      case Listening => WakeWordStep(a, t, now)
      case Capturing => CaptureStep(a, t, now)
      case Processing => a
  }

  /** The query the buffer holds: its pieces joined by spaces, stripped. */
  function Query(buffer: seq<String>): String {
    Strip(Join(" ", buffer))
  }

  /** The state while the LLM and TTS calls run: buffer taken, stale context dropped, speaking. */
  function Busy(a: Assistant, now: int): (b: Assistant)
    ensures b.queryBuffer == [] && b.phase == Processing && b.jarvisSpeaking
  {
    var current := if now - a.lastConversationTime > ConversationTimeout then a.(history := []) else a;
    current.(queryBuffer := [], phase := Processing, jarvisSpeaking := true)
  }

  /** The spoken answer recorded as one user and one assistant entry, capture resumed. */
  function Answered(busy: Assistant, query: String, answer: String, later: int): Assistant {
    Restarted(busy.(jarvisSpeaking := false,
                    history := busy.history + [Message("user", query), Message("assistant", answer)],
                    lastConversationTime := later, phase := Capturing, lastTranscriptTime := later))
  }

  /** Back to capturing without touching the history: after a STOP reply, or after a call that raised. */
  function Recovered(a: Assistant, later: int): (r: Assistant)
    ensures r.phase == Capturing && !r.jarvisSpeaking && r.timerVersion > a.timerVersion
    ensures r.queryBuffer == a.queryBuffer && r.history == a.history
  {
    Restarted(a.(jarvisSpeaking := false, phase := Capturing, lastTranscriptTime := later))
  }

  /** What `_process_query` does once the LLM has replied, as written. */
  function AfterReply(busy: Assistant, query: String, reply: SpokenOrStop, later: int, outcome: CallOutcome): Assistant {
    if reply.isStop then Recovered(busy, later)
    else if outcome == TtsRaised then busy.(jarvisSpeaking := false)
    else Answered(busy, query, reply.text.value, later)
  }

  /**
   * `_process_query` as written, with `now` read before the LLM call and
   * `later` after it. An exception from the LLM or TTS call leaves the
   * assistant in PROCESSING with no timer armed.
   */
  function ProcessQueryAsWritten(a: Assistant, now: int, later: int,
                                 llm: (String, seq<Message>) -> SpokenOrStop, outcome: CallOutcome): (r: Assistant)
    ensures r.queryBuffer == []
    ensures r.phase == Processing || (r.phase == Capturing && r.timerVersion > a.timerVersion)
    ensures r.timerVersion >= a.timerVersion
  {
    var query := Query(a.queryBuffer);
    if query == [] then Restarted(a.(queryBuffer := [], phase := Capturing))
    else if outcome == LlmRaised then Busy(a, now)
    else AfterReply(Busy(a, now), query, llm(query, Busy(a, now).history), later, outcome)
  }

  /** A state left in PROCESSING by a failed call goes back to capturing. */
  function Settled(r: Assistant, later: int): Assistant {
    if r.phase == Processing then Recovered(r, later) else r
  }

  /**
   * `_process_query` with a failed LLM or TTS call handled like a STOP reply:
   * the query is dropped and capture resumes with a fresh timer.
   */
  function ProcessQueryStep(a: Assistant, now: int, later: int,
                        llm: (String, seq<Message>) -> SpokenOrStop, outcome: CallOutcome): (r: Assistant)
    ensures r.queryBuffer == [] && r.phase == Capturing && r.timerVersion > a.timerVersion
  {
    Settled(ProcessQueryAsWritten(a, now, later, llm, outcome), later)
  }

  /** `_silence_check` once its sleep is over, run with the version it was armed with. */
  function SilenceStep(a: Assistant, version: nat, now: int, later: int,
                       llm: (String, seq<Message>) -> SpokenOrStop, outcome: CallOutcome): (r: Assistant)
    ensures version != a.timerVersion || a.phase != Capturing ==> r == a
  {
    if a.timerVersion != version || a.phase != Capturing then a
    else if now - a.lastTranscriptTime >= SilenceTimeout - SilenceMargin then
      if a.queryBuffer != [] then ProcessQueryStep(a, now, later, llm, outcome)
      else if now - a.lastConversationTime > ConversationTimeout then a.(phase := Listening, history := [])
      else Restarted(a)
    else a
  }

  /**
   * The silence decision of a current check while capturing: nothing happens
   * before the timeout; after it a non-empty buffer is processed as a query,
   * an idle conversation older than a minute goes back to LISTENING without
   * context, and otherwise the timer is armed again.
   */
  lemma SilenceDecision(a: Assistant, now: int, later: int,
                        llm: (String, seq<Message>) -> SpokenOrStop, outcome: CallOutcome)
    requires a.phase == Capturing
    ensures now - a.lastTranscriptTime < SilenceTimeout - SilenceMargin ==>
      SilenceStep(a, a.timerVersion, now, later, llm, outcome) == a
    ensures now - a.lastTranscriptTime >= SilenceTimeout - SilenceMargin && a.queryBuffer != [] ==>
      SilenceStep(a, a.timerVersion, now, later, llm, outcome) == ProcessQueryStep(a, now, later, llm, outcome)
    ensures now - a.lastTranscriptTime >= SilenceTimeout - SilenceMargin && a.queryBuffer == [] &&
            now - a.lastConversationTime > ConversationTimeout ==>
      SilenceStep(a, a.timerVersion, now, later, llm, outcome) == a.(phase := Listening, history := [])
    ensures now - a.lastTranscriptTime >= SilenceTimeout - SilenceMargin && a.queryBuffer == [] &&
            now - a.lastConversationTime <= ConversationTimeout ==>
      SilenceStep(a, a.timerVersion, now, later, llm, outcome) == Restarted(a)
  {
    var r := SilenceStep(a, a.timerVersion, now, later, llm, outcome);
    if now - a.lastTranscriptTime >= SilenceTimeout - SilenceMargin && a.queryBuffer != [] {
      assert r == ProcessQueryStep(a, now, later, llm, outcome);
    }
  }

  /** A non-empty string with no white space at either end, as `strip` leaves it. */
  predicate Trimmed(s: String) {
    s != [] && !IsSpace(s[0]) && !IsSpace(s[|s| - 1])
  }

  predicate AllTrimmed(buffer: seq<String>) {
    buffer == [] || (Trimmed(buffer[0]) && AllTrimmed(buffer[1..]))
  }

  lemma {:induction false} AllTrimmedAppend(buffer: seq<String>, piece: String)
    requires AllTrimmed(buffer) && Trimmed(piece)
    ensures AllTrimmed(buffer + [piece])
    decreases |buffer|
  {
    if buffer != [] {
      assert (buffer + [piece])[1..] == buffer[1..] + [piece];
      AllTrimmedAppend(buffer[1..], piece);
    } else {
      assert ([] + [piece])[1..] == [];
    }
  }

  /**
   * The states the handlers keep: the history is whole user/assistant pairs,
   * every buffered piece is non-empty and stripped, PROCESSING is never seen
   * between events, nothing is spoken, and LISTENING holds no query and no
   * context.
   */
  predicate Good(a: Assistant) {
    && Alternates(a.history) && |a.history| % 2 == 0
    && AllTrimmed(a.queryBuffer)
    && a.phase != Processing
    && !a.jarvisSpeaking
    && (a.phase == Listening ==> a.queryBuffer == [] && a.history == [])
  }

  lemma InitialGood()
    ensures Good(Initial())
  {
  }

  lemma TranscriptKeepsGood(a: Assistant, msg: SttMessage, now: int)
    requires Good(a)
    ensures Good(TranscriptStep(a, msg, now))
  {
    var t := Strip(msg.transcript);
    if msg.isFinal && t != [] {
      if a.phase == Listening {
        WakeWordKeepsGood(a, t, now);
      } else if a.phase == Capturing {
        CaptureKeepsGood(a, t, now);
      }
    }
  }

  lemma WakeWordKeepsGood(a: Assistant, t: String, now: int)
    requires Good(a)
    ensures Good(WakeWordStep(a, t, now))
  {
    if Contains(Lower(t), WakeWord) {
      var after := AfterWakeWord(t);
      Woken(a, t, now, after);
      WokenGood(a, after, now);
    } else {
      assert WakeWordStep(a, t, now) == a;
    }
  }

  lemma WokenGood(a: Assistant, after: String, now: int)
    requires Good(a) && (after == [] || Trimmed(after))
    ensures Good(Restarted(a.(phase := Capturing, queryBuffer := if after == [] then [] else [after], history := [],
                              lastTranscriptTime := now, lastConversationTime := now)))
  {
    if after != [] {
      AllTrimmedAppend([], after);
    }
  }

  /** The state a transcript holding the wake word leads to, given what follows the wake word. */
  lemma Woken(a: Assistant, t: String, now: int, after: String)
    requires Contains(Lower(t), WakeWord) && after == AfterWakeWord(t)
    ensures WakeWordStep(a, t, now) ==
      Restarted(a.(phase := Capturing, queryBuffer := if after == [] then [] else [after], history := [],
                   lastTranscriptTime := now, lastConversationTime := now))
  {
  }

  lemma CaptureKeepsGood(a: Assistant, t: String, now: int)
    requires Good(a) && a.phase == Capturing
    ensures Good(CaptureStep(a, t, now))
  {
    var clean := CaptureClean(t);
    Captured(a, t, now, clean);
    if clean != [] {
      AllTrimmedAppend(a.queryBuffer, clean);
    }
  }

  /** The state a capture leads to, given the cleaned transcript. */
  lemma Captured(a: Assistant, t: String, now: int, clean: String)
    requires clean == CaptureClean(t)
    ensures CaptureStep(a, t, now) ==
      Restarted(a.(queryBuffer := if clean == [] then a.queryBuffer else a.queryBuffer + [clean], lastTranscriptTime := now))
  {
  }

  /** A non-empty buffer of stripped pieces makes a non-empty query. */
  lemma QueryOfBuffer(buffer: seq<String>)
    requires buffer != []
    requires AllTrimmed(buffer)
    ensures Query(buffer) != []
  {
    var s := Join(" ", buffer);
    assert !IsSpace(buffer[0][0]);
    if |buffer| > 1 {
      assert s == buffer[0] + " " + Join(" ", buffer[1..]);
    }
    assert s[0] == buffer[0][0];
  }

  lemma ProcessQueryKeepsGood(a: Assistant, now: int, later: int,
                               llm: (String, seq<Message>) -> SpokenOrStop, outcome: CallOutcome)
    requires Good(a)
    ensures Good(ProcessQueryStep(a, now, later, llm, outcome))
  {
    ProcessQueryRecovers(a, now, later, llm, outcome);
    ProcessQueryKeepsPairs(a, now, later, llm, outcome);
  }

  lemma AppendPairAlternates(h: seq<Message>, query: String, answer: String)
    requires Alternates(h) && |h| % 2 == 0
    ensures Alternates(h + [Message("user", query), Message("assistant", answer)])
  {
    var h2 := h + [Message("user", query), Message("assistant", answer)];
    forall i | 0 <= i < |h2| ensures h2[i].role == (if i % 2 == 0 then "user" else "assistant") {
      if i < |h| {
        assert h2[i] == h[i];
      }
    }
  }

  /** `_process_query` case by case: empty query, LLM call raised, or the reply handled. */
  lemma ProcessQueryCases(a: Assistant, now: int, later: int,
                          llm: (String, seq<Message>) -> SpokenOrStop, outcome: CallOutcome, query: String)
    requires query == Query(a.queryBuffer)
    ensures query == [] ==> ProcessQueryStep(a, now, later, llm, outcome) == Restarted(a.(queryBuffer := [], phase := Capturing))
    ensures query != [] && outcome == LlmRaised ==> ProcessQueryStep(a, now, later, llm, outcome) == Recovered(Busy(a, now), later)
    ensures query != [] && outcome != LlmRaised ==>
      (ProcessQueryStep(a, now, later, llm, outcome) ==
       Settled(AfterReply(Busy(a, now), query, llm(query, Busy(a, now).history), later, outcome), later))
  {
  }

  /** Processing a query adds whole user/assistant pairs to the history, if anything. */
  lemma ProcessQueryKeepsPairs(a: Assistant, now: int, later: int,
                               llm: (String, seq<Message>) -> SpokenOrStop, outcome: CallOutcome)
    requires Alternates(a.history) && |a.history| % 2 == 0
    ensures Alternates(ProcessQueryStep(a, now, later, llm, outcome).history)
    ensures |ProcessQueryStep(a, now, later, llm, outcome).history| % 2 == 0
  {
    var query := Query(a.queryBuffer);
    var r := ProcessQueryStep(a, now, later, llm, outcome);
    if query != [] {
      QueryKeepsPairs(a, now, later, llm, outcome, query);
    } else {
      ProcessQueryCases(a, now, later, llm, outcome, query);
      assert r.history == a.history;
    }
  }

  lemma QueryKeepsPairs(a: Assistant, now: int, later: int,
                        llm: (String, seq<Message>) -> SpokenOrStop, outcome: CallOutcome, query: String)
    requires Alternates(a.history) && |a.history| % 2 == 0
    requires query == Query(a.queryBuffer) && query != []
    ensures Alternates(ProcessQueryStep(a, now, later, llm, outcome).history)
    ensures |ProcessQueryStep(a, now, later, llm, outcome).history| % 2 == 0
  {
    var h := Busy(a, now).history;
    var reply := llm(query, h);
    HistoryAfterQuery(a, now, later, llm, outcome, query);
    var r := ProcessQueryStep(a, now, later, llm, outcome);
    var answered := outcome == Completed && !reply.isStop;
    assert Alternates(h) && |h| % 2 == 0;
    if answered {
      PairsKept(h, r.history, query, reply.text.value, answered);
    } else {
      PairsKept(h, r.history, query, [], answered);
    }
  }

  lemma PairsKept(h: seq<Message>, h2: seq<Message>, query: String, answer: String, answered: bool)
    requires Alternates(h) && |h| % 2 == 0
    requires h2 == if answered then h + [Message("user", query), Message("assistant", answer)] else h
    ensures Alternates(h2) && |h2| % 2 == 0
  {
    if answered {
      AppendPairAlternates(h, query, answer);
    }
  }

  /** The history and conversation time a non-empty query leaves behind, case by case. */
  lemma HistoryAfterQuery(a: Assistant, now: int, later: int,
                          llm: (String, seq<Message>) -> SpokenOrStop, outcome: CallOutcome, query: String)
    requires query == Query(a.queryBuffer) && query != []
    ensures var b := Busy(a, now);
      var reply := llm(query, b.history);
      var r := ProcessQueryStep(a, now, later, llm, outcome);
      && !r.jarvisSpeaking
      && (reply.isStop || outcome != Completed ==> r.history == b.history && r.lastConversationTime == a.lastConversationTime)
      && (!reply.isStop && outcome == Completed ==>
            r.history == b.history + [Message("user", query), Message("assistant", reply.text.value)]
            && r.lastConversationTime == later)
  {
    var b := Busy(a, now);
    if outcome != LlmRaised {
      AfterReplyCases(b, query, llm(query, b.history), later, outcome);
    }
  }

  lemma AfterReplyCases(b: Assistant, query: String, reply: SpokenOrStop, later: int, outcome: CallOutcome)
    requires b.phase == Processing && outcome != LlmRaised
    ensures var r := Settled(AfterReply(b, query, reply, later, outcome), later);
      && !r.jarvisSpeaking
      && (reply.isStop || outcome != Completed ==> r.history == b.history && r.lastConversationTime == b.lastConversationTime)
      && (!reply.isStop && outcome == Completed ==>
            r.history == b.history + [Message("user", query), Message("assistant", reply.text.value)]
            && r.lastConversationTime == later)
  {
  }

  lemma {:induction false} SilenceKeepsGood(a: Assistant, version: nat, now: int, later: int,
                                            llm: (String, seq<Message>) -> SpokenOrStop, outcome: CallOutcome)
    requires Good(a)
    ensures Good(SilenceStep(a, version, now, later, llm, outcome))
  {
    if a.timerVersion == version && a.phase == Capturing && now - a.lastTranscriptTime >= SilenceTimeout - SilenceMargin
       && a.queryBuffer != [] {
      ProcessQueryKeepsGood(a, now, later, llm, outcome);
    }
  }

  /**
   * The context sent with every query keeps whole pairs, starting with a
   * user entry, whatever events came before.
   */
  lemma ContextOfGoodState(a: Assistant)
    requires Good(a)
    ensures Alternates(ContextHistory(a.history)) && |ContextHistory(a.history)| % 2 == 0
  {
    ContextKeepsPairs(a.history);
  }

  /**
   * A reply is added to the history as one user entry, then one assistant
   * entry; a STOP reply leaves the history as it was.
   */
  lemma ProcessQueryHistory(a: Assistant, now: int, later: int,
                            llm: (String, seq<Message>) -> SpokenOrStop, outcome: CallOutcome)
    requires Good(a) && a.queryBuffer != []
    ensures var h := if now - a.lastConversationTime > ConversationTimeout then [] else a.history;
      var reply := llm(Query(a.queryBuffer), h);
      var r := ProcessQueryStep(a, now, later, llm, outcome);
      && !r.jarvisSpeaking
      && (reply.isStop || outcome != Completed ==> r.history == h && r.lastConversationTime == a.lastConversationTime)
      && (!reply.isStop && outcome == Completed ==>
            r.history == h + [Message("user", Query(a.queryBuffer)), Message("assistant", reply.text.value)]
            && r.lastConversationTime == later)
  {
    QueryOfBuffer(a.queryBuffer);
    HistoryAfterQuery(a, now, later, llm, outcome, Query(a.queryBuffer));
  }

  /** An empty joined query goes straight back to capturing without asking the LLM. */
  lemma EmptyQuerySkipsLlm(a: Assistant, now: int, later: int,
                           llm1: (String, seq<Message>) -> SpokenOrStop, llm2: (String, seq<Message>) -> SpokenOrStop,
                           o1: CallOutcome, o2: CallOutcome)
    requires Query(a.queryBuffer) == []
    ensures ProcessQueryStep(a, now, later, llm1, o1) == ProcessQueryStep(a, now, later, llm2, o2)
    ensures ProcessQueryStep(a, now, later, llm1, o1) == Restarted(a.(queryBuffer := [], phase := Capturing))
  {
  }

  /**
   * As written, an exception from the LLM or TTS call leaves the assistant
   * in PROCESSING: every later transcript is dropped and every silence
   * check does nothing, so it never listens again.
   */
  lemma StuckAfterFailedCall(a: Assistant, now: int, later: int,
                             llm: (String, seq<Message>) -> SpokenOrStop, outcome: CallOutcome)
    requires Good(a) && a.queryBuffer != []
    requires outcome == LlmRaised || (outcome == TtsRaised && !llm(Query(a.queryBuffer),
      if now - a.lastConversationTime > ConversationTimeout then [] else a.history).isStop)
    ensures ProcessQueryAsWritten(a, now, later, llm, outcome).phase == Processing
    ensures forall msg, t ::
      TranscriptStep(ProcessQueryAsWritten(a, now, later, llm, outcome), msg, t) == ProcessQueryAsWritten(a, now, later, llm, outcome)
    ensures forall v, t, l, o ::
      SilenceStep(ProcessQueryAsWritten(a, now, later, llm, outcome), v, t, l, llm, o) == ProcessQueryAsWritten(a, now, later, llm, outcome)
  {
    QueryOfBuffer(a.queryBuffer);
  }

  /** With failures handled, a processed query always ends in CAPTURING with nothing spoken and a fresh timer. */
  lemma ProcessQueryRecovers(a: Assistant, now: int, later: int,
                             llm: (String, seq<Message>) -> SpokenOrStop, outcome: CallOutcome)
    requires Good(a)
    ensures var r := ProcessQueryStep(a, now, later, llm, outcome);
      r.phase == Capturing && !r.jarvisSpeaking && r.timerVersion > a.timerVersion && r.queryBuffer == []
    ensures outcome == Completed ==> ProcessQueryStep(a, now, later, llm, outcome) == ProcessQueryAsWritten(a, now, later, llm, outcome)
  {
    if Query(a.queryBuffer) != [] {
      SpokenQueryRecovers(a, now, later, llm, outcome);
    }
  }

  lemma SpokenQueryRecovers(a: Assistant, now: int, later: int,
                            llm: (String, seq<Message>) -> SpokenOrStop, outcome: CallOutcome)
    requires Query(a.queryBuffer) != []
    ensures !ProcessQueryStep(a, now, later, llm, outcome).jarvisSpeaking
    ensures outcome == Completed ==> ProcessQueryStep(a, now, later, llm, outcome) == ProcessQueryAsWritten(a, now, later, llm, outcome)
  {
  }

  /** `JarvisAssistant`: the fields its handlers update in place. */
  class JarvisAssistant {
    var phase: Phase
    var queryBuffer: seq<String>
    var conversationHistory: seq<Message>
    var lastTranscriptTime: int
    var lastConversationTime: int
    var jarvisSpeaking: bool
    var timerVersion: nat

    function Snapshot(): Assistant
      reads this
    {
      Assistant(phase, queryBuffer, conversationHistory, lastTranscriptTime, lastConversationTime, jarvisSpeaking, timerVersion)
    }

    constructor ()
      ensures Snapshot() == Initial()
    {
      phase := Listening;
      queryBuffer := [];
      conversationHistory := [];
      lastTranscriptTime := 0;
      lastConversationTime := 0;
      jarvisSpeaking := false;
      timerVersion := 0;
    }

    /** One message of `receive_transcripts`. */
    method ReceiveTranscript(msg: SttMessage, now: int)
      modifies this
      ensures Snapshot() == TranscriptStep(old(Snapshot()), msg, now)
    {
      var transcript := Strip(msg.transcript);
      if !msg.isFinal || transcript == [] {
        return;
      }
      if phase == Listening {
        HandleWakeWord(transcript, now);
      } else if phase == Capturing {
        HandleCapture(transcript, now);
      }
    }

    method HandleWakeWord(transcript: String, now: int)
      modifies this
      ensures Snapshot() == WakeWordStep(old(Snapshot()), transcript, now)
    {
      var woke := Contains(Lower(transcript), WakeWord);
      if !woke {
        assert WakeWordStep(Snapshot(), transcript, now) == Snapshot();
        return;
      }
      var after := AfterWakeWord(transcript);
      Woken(Snapshot(), transcript, now, after);
      Wake(after, now);
    }

    /** The wake word was heard: start a fresh capture holding what followed it. */
    method Wake(after: String, now: int)
      modifies this
      ensures Snapshot() == Restarted(old(Snapshot()).(phase := Capturing, queryBuffer := if after == [] then [] else [after],
                                                      history := [], lastTranscriptTime := now, lastConversationTime := now))
    {
      phase := Capturing;
      queryBuffer := [];
      conversationHistory := [];
      lastTranscriptTime := now;
      lastConversationTime := now;
      if after != [] {
        queryBuffer := [after];
      }
      RestartTimer();
    }

    method HandleCapture(transcript: String, now: int)
      modifies this
      ensures Snapshot() == CaptureStep(old(Snapshot()), transcript, now)
    {
      var clean := CaptureClean(transcript);
      Captured(Snapshot(), transcript, now, clean);
      Capture(clean, now);
    }

    /** Add the cleaned transcript, if any, and restart the silence timer. */
    method Capture(clean: String, now: int)
      modifies this
      ensures Snapshot() == Restarted(old(Snapshot()).(queryBuffer := if clean == [] then old(queryBuffer) else old(queryBuffer) + [clean],
                                                      lastTranscriptTime := now))
    {
      if clean != [] {
        queryBuffer := queryBuffer + [clean];
      }
      lastTranscriptTime := now;
      RestartTimer();
    }

    method RestartTimer()
      modifies this
      ensures Snapshot() == Restarted(old(Snapshot()))
    {
      timerVersion := timerVersion + 1;
    }

    /** A silence check armed with `version` wakes up at `now`. */
    method SilenceCheck(version: nat, now: int, later: int,
                        llm: (String, seq<Message>) -> SpokenOrStop, outcome: CallOutcome)
      modifies this
      ensures Snapshot() == SilenceStep(old(Snapshot()), version, now, later, llm, outcome)
    {
      if timerVersion != version {
        return;
      }
      if phase != Capturing {
        return;
      }
      if now - lastTranscriptTime >= SilenceTimeout - SilenceMargin {
        if queryBuffer != [] {
          ProcessQuery(now, later, llm, outcome);
        } else if now - lastConversationTime > ConversationTimeout {
          phase := Listening;
          conversationHistory := [];
        } else {
          RestartTimer();
        }
      }
    }

    /** Resume capturing after a call that raised. */
    method Recover(later: int)
      modifies this
      ensures Snapshot() == Recovered(old(Snapshot()), later)
    {
      jarvisSpeaking := false;
      phase := Capturing;
      lastTranscriptTime := later;
      RestartTimer();
    }

    method ProcessQuery(now: int, later: int, llm: (String, seq<Message>) -> SpokenOrStop, outcome: CallOutcome)
      modifies this
      ensures Snapshot() == ProcessQueryStep(old(Snapshot()), now, later, llm, outcome)
    {
      ghost var a := Snapshot();
      var query := Query(queryBuffer);
      ProcessQueryCases(a, now, later, llm, outcome, query);
      if query == [] {
        queryBuffer := [];
        phase := Capturing;
        assert Snapshot() == a.(queryBuffer := [], phase := Capturing);
        RestartTimer();
        return;
      }
      StartProcessing(now);
      ghost var busy := Snapshot();
      assert busy == Busy(a, now);
      if outcome == LlmRaised {
        Recover(later);
        assert Snapshot() == Recovered(busy, later);
        return;
      }
      assert conversationHistory == busy.history;
      var reply := llm(query, conversationHistory);
      Reply(query, reply, later, outcome);
      assert Snapshot() == Settled(AfterReply(busy, query, reply, later, outcome), later);
    }

    /** `_process_query` with a query: the buffer is taken, a stale history dropped, and the assistant speaks. */
    method StartProcessing(now: int)
      modifies this
      ensures Snapshot() == Busy(old(Snapshot()), now)
    {
      queryBuffer := [];
      if now - lastConversationTime > ConversationTimeout {
        conversationHistory := [];
      }
      phase := Processing;
      jarvisSpeaking := true;
    }

    /** The rest of `_process_query` once the LLM replied, with a failed TTS call handled. */
    method Reply(query: String, reply: SpokenOrStop, later: int, outcome: CallOutcome)
      requires phase == Processing
      modifies this
      ensures Snapshot() == Settled(AfterReply(old(Snapshot()), query, reply, later, outcome), later)
    {
      if reply.isStop {
        Recover(later);
        return;
      }
      var response := reply.text.value;
      jarvisSpeaking := false;
      if outcome == TtsRaised {
        Recover(later);
        return;
      }
      conversationHistory := conversationHistory + [Message("user", query), Message("assistant", response)];
      lastConversationTime := later;
      phase := Capturing;
      lastTranscriptTime := later;
      RestartTimer();
    }
  }
}
