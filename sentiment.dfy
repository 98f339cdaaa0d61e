/**
 * The background sentiment analyzer and the support agent that consults it.
 * The analyzer labels every caller transcript with the LLM's one-word
 * verdict, keeps the labels, and counts frustration; the support agent
 * escalates once the count reaches three and then resets it.
 *
 * The LLM's reply to a transcript is an input: its text, or the error it
 * raised.
 */
module Sentiment {
  import opened Wrappers
  import opened Text
  import opened Tally
  import opened AgentEvents

  const Labels: seq<String> := ["positive", "neutral", "negative", "frustrated"]

  /** The frustration count at which a call should go to a supervisor. */
  const EscalationThreshold := 3

  /** How many recent entries a summary shows. */
  const SummaryEntries := 5

  /** The reply, stripped and lowercased, when it is one of the four labels; "neutral" otherwise. */
  function Classify(reply: String): (sentiment: String)
    ensures sentiment in Labels
    ensures Lower(Strip(reply)) in Labels ==> sentiment == Lower(Strip(reply))
    ensures Lower(Strip(reply)) !in Labels ==> sentiment == "neutral"
  {
    var s := Lower(Strip(reply));
    if s in Labels then s else "neutral"
  }

  /** The frustration count after one more sentiment. */
  function NextFrustration(count: int, sentiment: String): (next: int)
    ensures sentiment == "negative" || sentiment == "frustrated" ==> next == count + 1
    ensures sentiment == "positive" ==> next == (if count > 0 then count - 1 else 0)
    ensures sentiment != "negative" && sentiment != "frustrated" && sentiment != "positive" ==> next == count
    ensures count >= 0 ==> next >= 0
  {
    if sentiment == "negative" || sentiment == "frustrated" then count + 1
    else if sentiment == "positive" then (if 0 > count - 1 then 0 else count - 1)
    else count
  }

  /** A negative sentiment cannot lower the count and a positive one cannot raise it. */
  lemma FrustrationMonotone(count: int, sentiment: String)
    requires count >= 0 && sentiment in Labels
    ensures sentiment == "negative" || sentiment == "frustrated" <==> NextFrustration(count, sentiment) > count
    ensures sentiment == "positive" && count > 0 <==> NextFrustration(count, sentiment) < count
  {
  }

  datatype Entry = Entry(text: String, sentiment: String)

  /**
   * `get_sentiment_summary`. With no history the dictionary holds only
   * "overall" and "history"; the `None` fields are the keys it lacks.
   */
  datatype Summary = Summary(
    overall: String,
    current: Option<String>,
    frustrationCount: Option<int>,
    shouldEscalate: Option<bool>,
    history: seq<Entry>)

  function Sentiments(history: seq<Entry>): (labels: seq<String>)
    ensures |labels| == |history|
    ensures forall i :: 0 <= i < |history| ==> labels[i] == history[i].sentiment
  {
    seq(|history|, i requires 0 <= i < |history| => history[i].sentiment)
  }

  /** Python's `xs[-n:]`. */
  function LastN<T>(xs: seq<T>, n: nat): (r: seq<T>)
    ensures |r| == (if |xs| < n then |xs| else n)
    ensures r == xs[|xs| - |r|..]
  {
    if |xs| <= n then xs else xs[|xs| - n..]
  }

  function SummaryOf(history: seq<Entry>, current: String, count: int): (s: Summary)
    ensures history == [] ==> s == Summary("neutral", None, None, None, [])
    ensures history != [] ==> s.current == Some(current) && s.frustrationCount == Some(count)
    ensures history != [] ==> s.shouldEscalate == Some(count >= EscalationThreshold)
    ensures history != [] ==> s.overall in Sentiments(history)
    ensures history != [] ==> forall i :: 0 <= i < |history| ==>
      Count(Sentiments(history), history[i].sentiment) <= Count(Sentiments(history), s.overall)
    ensures |s.history| <= SummaryEntries && |s.history| <= |history| && s.history == history[|history| - |s.history|..]
    ensures |history| >= SummaryEntries ==> |s.history| == SummaryEntries
  {
    if history == [] then Summary("neutral", None, None, None, [])
    else
      var labels := Sentiments(history);
      var overall := MostCommon(labels);
      assert forall i :: 0 <= i < |history| ==> history[i].sentiment == labels[i];
      Summary(overall, Some(current), Some(count), Some(count >= EscalationThreshold), LastN(history, SummaryEntries))
  }

  /** The overall label is `MostCommon` of the labels, so a tie goes to the label recorded first. */
  lemma SummaryOverall(history: seq<Entry>, current: String, count: int)
    requires history != []
    ensures SummaryOf(history, current, count).overall == MostCommon(Sentiments(history))
  {
  }

  lemma LabelledAppend(history: seq<Entry>, e: Entry)
    requires forall i :: 0 <= i < |history| ==> history[i].sentiment in Labels
    requires e.sentiment in Labels
    ensures forall i :: 0 <= i < |history + [e]| ==> (history + [e])[i].sentiment in Labels
  {
    forall i | 0 <= i < |history + [e]| ensures (history + [e])[i].sentiment in Labels {
      if i < |history| {
        assert (history + [e])[i] == history[i];
      }
    }
  }

  /** `SentimentAnalyzer`: the history, the current sentiment, the frustration count and the speaking flag. */
  class SentimentAnalyzer {
    var sentimentHistory: seq<Entry>
    var currentSentiment: String
    var frustrationCount: int
    var userIsSpeaking: bool

    /** The count is never negative and every recorded sentiment is one of the four. */
    predicate Valid()
      reads this
    {
      && frustrationCount >= 0
      && (forall i :: 0 <= i < |sentimentHistory| ==> sentimentHistory[i].sentiment in Labels)
      && currentSentiment in Labels
    }

    constructor ()
      ensures Valid()
      ensures sentimentHistory == [] && currentSentiment == "neutral" && frustrationCount == 0 && !userIsSpeaking
    {
      sentimentHistory := [];
      currentSentiment := "neutral";
      frustrationCount := 0;
      userIsSpeaking := false;
    }

    function ShouldEscalate(): (escalate: bool)
      reads this
      ensures escalate <==> frustrationCount >= EscalationThreshold
    {
      frustrationCount >= EscalationThreshold
    }

    function GetSentimentSummary(): Summary
      reads this
    {
      SummaryOf(sentimentHistory, currentSentiment, frustrationCount)
    }

    /**
     * `_analyze_sentiment`: `reply` is the LLM's answer, or the error it
     * raised, which leaves every field as it was.
     */
    method AnalyzeSentiment(text: String, reply: Result<String, String>)
      requires Valid()
      modifies this
      ensures Valid()
      ensures userIsSpeaking == old(userIsSpeaking)
      ensures reply.Failure? ==>
        sentimentHistory == old(sentimentHistory) && currentSentiment == old(currentSentiment) && frustrationCount == old(frustrationCount)
      ensures reply.Success? ==>
        && currentSentiment == Classify(reply.value)
        && sentimentHistory == old(sentimentHistory) + [Entry(text, Classify(reply.value))]
        && frustrationCount == NextFrustration(old(frustrationCount), Classify(reply.value))
    {
      if reply.Failure? {
        return;
      }
      var sentiment := Classify(reply.value);
      LabelledAppend(sentimentHistory, Entry(text, sentiment));
      currentSentiment := sentiment;
      sentimentHistory := sentimentHistory + [Entry(text, sentiment)];
      UpdateFrustration(sentiment);
    }

    /** The count update of `_analyze_sentiment`. */
    method UpdateFrustration(sentiment: String)
      modifies this
      ensures frustrationCount == NextFrustration(old(frustrationCount), sentiment)
      ensures sentimentHistory == old(sentimentHistory) && currentSentiment == old(currentSentiment)
      ensures userIsSpeaking == old(userIsSpeaking)
    {
      if sentiment == "negative" || sentiment == "frustrated" {
        frustrationCount := frustrationCount + 1;
      } else if sentiment == "positive" {
        frustrationCount := if 0 > frustrationCount - 1 then 0 else frustrationCount - 1;
      }
    }

    /**
     * `process_event`: the speaking flag follows the started/stopped events,
     * and only caller transcripts are analysed.
     */
    method ProcessEvent(event: Event, reply: Result<String, String>)
      requires Valid()
      modifies this
      ensures Valid()
      ensures event.UserStartedSpeaking? ==> userIsSpeaking
      ensures event.UserStoppedSpeaking? ==> !userIsSpeaking
      ensures !event.UserStartedSpeaking? && !event.UserStoppedSpeaking? ==> userIsSpeaking == old(userIsSpeaking)
      ensures !event.IsUserTranscript() || reply.Failure? ==>
        sentimentHistory == old(sentimentHistory) && currentSentiment == old(currentSentiment) && frustrationCount == old(frustrationCount)
      ensures event.IsUserTranscript() && reply.Success? ==>
        && sentimentHistory == old(sentimentHistory) + [Entry(event.content, Classify(reply.value))]
        && currentSentiment == Classify(reply.value)
        && frustrationCount == NextFrustration(old(frustrationCount), Classify(reply.value))
    {
      match event
      case UserStartedSpeaking =>
        userIsSpeaking := true;
      case UserStoppedSpeaking =>
        userIsSpeaking := false;
      case TranscriptUpdate(role, content) =>
        if role == "user" {
          AnalyzeSentiment(content, reply);
        }
      case _ =>
    }
  }

  /** The three lines spoken instead of an LLM answer when a call is escalated. */
  const EscalationLines: seq<String> := [
    "I can hear this has been frustrating. ",
    "I sincerely apologize for the experience you've had. ",
    "Let me do my absolute best to help you resolve this right now."
  ]

  const EscalationYes := "YES - Customer frustration is high. Recommend immediate transfer to supervisor."
  const EscalationNo := "NO - Customer sentiment is manageable. Continue assisting."
  const TransferNotice := "I've noted your request to speak with a supervisor. In a production setup, you would now be transferred."

  /**
   * The text of `get_customer_sentiment` for a summary. A summary without
   * the "current" key makes the dictionary lookup raise `KeyError`.
   */
  function CustomerSentimentText(s: Summary): (r: Result<String, String>)
    ensures r.Failure? <==> s.current.None? || s.frustrationCount.None?
    ensures r.Success? ==>
      r.value == "Current sentiment: " + s.current.value + ". Overall mood: " + s.overall
                 + ". Frustration level: " + IntToString(s.frustrationCount.value) + "/3 (escalation threshold)."
  {
    if s.current.None? then Failure("KeyError: 'current'")
    else if s.frustrationCount.None? then Failure("KeyError: 'frustration_count'")
    else Success("Current sentiment: " + s.current.value + ". Overall mood: " + s.overall
      + ". Frustration level: " + IntToString(s.frustrationCount.value) + "/3 (escalation threshold).")
  }

  /** Asking for the customer's sentiment fails exactly until the first sentiment has been recorded. */
  lemma CustomerSentimentNeedsHistory(history: seq<Entry>, current: String, count: int)
    ensures CustomerSentimentText(SummaryOf(history, current, count)).Failure? <==> history == []
  {
  }

  /** `SupportAgent`: the agent holds the analyzer it consults and resets. */
  class SupportAgent {
    const analyzer: SentimentAnalyzer

    constructor (analyzer: SentimentAnalyzer)
      ensures this.analyzer == analyzer
    {
      this.analyzer := analyzer;
    }

    /**
     * `generate_response`. When escalation is due, the three fixed lines are
     * yielded, no LLM call is made and the count drops to zero; otherwise
     * the LLM's streamed pieces (`streamed`) are passed on.
     */
    method GenerateResponse(streamed: seq<String>) returns (yielded: seq<String>, askedLlm: bool)
      requires analyzer.Valid()
      modifies analyzer
      ensures analyzer.Valid()
      ensures old(analyzer.ShouldEscalate()) ==> yielded == EscalationLines && !askedLlm && analyzer.frustrationCount == 0
      ensures !old(analyzer.ShouldEscalate()) ==> yielded == streamed && askedLlm && analyzer.frustrationCount == old(analyzer.frustrationCount)
      ensures !analyzer.ShouldEscalate()
      ensures analyzer.sentimentHistory == old(analyzer.sentimentHistory) && analyzer.currentSentiment == old(analyzer.currentSentiment)
      ensures analyzer.userIsSpeaking == old(analyzer.userIsSpeaking)
    {
      if analyzer.ShouldEscalate() {
        yielded := EscalationLines;
        askedLlm := false;
        analyzer.frustrationCount := 0;
        return;
      }
      yielded := streamed;
      askedLlm := true;
    }

    function GetCustomerSentiment(): (r: Result<String, String>)
      reads analyzer
      ensures r.Failure? <==> analyzer.sentimentHistory == []
    {
      CustomerSentimentNeedsHistory(analyzer.sentimentHistory, analyzer.currentSentiment, analyzer.frustrationCount);
      CustomerSentimentText(analyzer.GetSentimentSummary())
    }

    function CheckEscalationNeeded(): (answer: String)
      reads analyzer
      ensures answer == EscalationYes <==> analyzer.frustrationCount >= EscalationThreshold
      ensures answer == EscalationNo <==> analyzer.frustrationCount < EscalationThreshold
    {
      if analyzer.ShouldEscalate() then EscalationYes else EscalationNo
    }

    /** `transfer_to_supervisor`: reads the summary for the log and changes nothing. */
    method TransferToSupervisor() returns (message: String)
      ensures message == TransferNotice
      ensures unchanged(analyzer)
    {
      var summary := analyzer.GetSentimentSummary();
      message := TransferNotice;
    }
  }
}
