/**
 * The Jarvis LLM client's own logic: which part of the conversation is sent
 * as context, how the prompt text is laid out, and how the model's
 * "SPEAK:" / "STOP:" reply prefix is read. The Groq calls themselves are
 * oracles: the raw text of a text-model reply is a function of the prompt,
 * and the vision request is a reply or an error message.
 */
module JarvisLlm {
  import opened Wrappers
  import opened Text

  datatype Message = Message(role: String, content: String)

  /** `(response, is_stop)` as returned by `_parse_response`; `None` is Python's `None`. */
  datatype Reply = Reply(text: Option<String>, isStop: bool)

  /** Number of most recent entries kept after the first exchange: the last three pairs. */
  const RecentEntries := 6

  /**
   * `get_context_history`: a history of at most two entries is sent as it is;
   * otherwise the first two entries followed by the last min(6, n - 2).
   */
  function ContextHistory(history: seq<Message>): (r: seq<Message>)
    ensures |history| <= 2 ==> r == history
    ensures |history| > 2 ==> |r| == 2 + (if |history| - 2 < RecentEntries then |history| - 2 else RecentEntries)
    ensures |history| > 2 ==> r[..2] == history[..2]
    ensures |history| > 2 ==> r[2..] == history[|history| - (|r| - 2)..]
    ensures |r| <= 2 + RecentEntries
  {
    var n := |history|;
    if n <= 2 then history
    else
      var start := if n - RecentEntries > 2 then n - RecentEntries else 2;
      history[..2] + history[start..]
  }

  /** `idx` picks the elements of `r` out of `s` at strictly increasing positions. */
  predicate Picks<T(==)>(r: seq<T>, s: seq<T>, idx: seq<nat>) {
    && |idx| == |r|
    && (forall i :: 0 <= i < |idx| ==> idx[i] < |s| && r[i] == s[idx[i]])
    && (forall i, j :: 0 <= i < j < |idx| ==> idx[i] < idx[j])
  }

  /** The context is an order-preserving subsequence of the history: no entry is repeated or moved. */
  lemma ContextIsSubsequence(history: seq<Message>) returns (idx: seq<nat>)
    ensures Picks(ContextHistory(history), history, idx)
  {
    var r := ContextHistory(history);
    var n := |history|;
    if n <= 2 {
      idx := seq(n, i => i);
    } else {
      var k := |r| - 2;
      idx := seq(|r|, i requires 0 <= i < |r| => if i < 2 then i else n - k + (i - 2));
      forall i | 0 <= i < |idx| ensures idx[i] < n && r[i] == history[idx[i]] {
        if i >= 2 {
          assert r[i] == r[2..][i - 2];
        }
      }
    }
  }

  /** Entry `i` of a conversation of user/assistant pairs has the role its parity says. */
  predicate Alternates(h: seq<Message>) {
    forall i :: 0 <= i < |h| ==> h[i].role == (if i % 2 == 0 then "user" else "assistant")
  }

  /**
   * Jarvis records the conversation as user/assistant pairs; the context cut
   * keeps whole pairs, so it still alternates and starts with a user entry.
   */
  lemma ContextKeepsPairs(history: seq<Message>)
    requires Alternates(history) && |history| % 2 == 0
    ensures Alternates(ContextHistory(history)) && |ContextHistory(history)| % 2 == 0
  {
    var r := ContextHistory(history);
    var n := |history|;
    if n > 2 {
      var k := |r| - 2;
      var d := n - k - 2;
      assert k == n - 2 || k == RecentEntries;
      assert d % 2 == 0;
      forall i | 0 <= i < |r| ensures r[i].role == (if i % 2 == 0 then "user" else "assistant") {
        if i >= 2 {
          assert r[i] == r[2..][i - 2] == history[i + d];
          SameParity(i, d);
        }
      }
    }
  }

  lemma SameParity(i: int, d: int)
    requires d % 2 == 0
    ensures (i + d) % 2 == i % 2
  {
  }

  function Speaker(m: Message): String {
    if m.role == "user" then "User" else "Jarvis"
  }

  /** One line of the history text: `"{User|Jarvis}: {content}"`. */
  function HistoryLine(m: Message): (line: String)
    ensures StartsWith(line, "User: ") <==> m.role == "user"
    ensures m.role != "user" ==> StartsWith(line, "Jarvis: ")
    ensures line[|Speaker(m)| + 2..] == m.content
  {
    var line := Speaker(m) + ": " + m.content;
    if m.role == "user" then
      assert line[..6] == "User: ";
      line
    else
      assert line[..8] == "Jarvis: " && line[5] == 's';
      line
  }

  function HistoryLines(context: seq<Message>): (lines: seq<String>)
    ensures |lines| == |context|
    ensures forall i :: 0 <= i < |context| ==> lines[i] == HistoryLine(context[i])
  {
    seq(|context|, i requires 0 <= i < |context| => HistoryLine(context[i]))
  }

  function HistoryText(context: seq<Message>): String {
    Join("\n", HistoryLines(context))
  }

  /**
   * The text sent to the model: with no context only `"CURRENT QUERY: …"`,
   * otherwise the history block first.
   */
  function PromptText(query: String, history: seq<Message>): (t: String)
    ensures ContextHistory(history) == [] ==> t == "CURRENT QUERY: " + query
    ensures ContextHistory(history) != [] ==>
      t == "CONVERSATION HISTORY:\n" + HistoryText(ContextHistory(history)) + "\n\nCURRENT QUERY: " + query
  {
    var context := ContextHistory(history);
    if context != [] then
      "CONVERSATION HISTORY:\n" + HistoryText(context) + "\n\nCURRENT QUERY: " + query
    else
      "CURRENT QUERY: " + query
  }

  /**
   * When no message content contains a newline, the history text splits back
   * into exactly one line per context entry, each labelled by its role.
   */
  lemma HistoryTextLines(context: seq<Message>)
    requires context != []
    requires forall i :: 0 <= i < |context| ==> '\n' !in context[i].content
    ensures SplitOn(HistoryText(context), '\n') == HistoryLines(context)
    ensures forall i :: 0 <= i < |context| ==>
      (StartsWith(SplitOn(HistoryText(context), '\n')[i], "User: ") <==> context[i].role == "user")
  {
    var lines := HistoryLines(context);
    forall i | 0 <= i < |lines| ensures '\n' !in lines[i] {
      var m := context[i];
      assert lines[i] == Speaker(m) + ": " + m.content;
      assert '\n' !in Speaker(m) + ": ";
    }
    SplitOnJoin(lines, '\n');
  }

  /**
   * `_parse_response`: a reply starting with "STOP:" in any case means "not
   * for me"; a "SPEAK:" prefix in any case is removed and the rest stripped;
   * any other reply is spoken as it is.
   */
  function ParseResponse(text: String): (r: Reply)
    ensures r.isStop <==> StartsWith(Upper(text), "STOP:")
    ensures r.isStop <==> r.text.None?
    ensures !r.isStop && StartsWith(Upper(text), "SPEAK:") ==> r.text == Some(Strip(text[6..]))
    ensures !StartsWith(Upper(text), "STOP:") && !StartsWith(Upper(text), "SPEAK:") ==> r.text == Some(text)
  {
    if StartsWith(Upper(text), "STOP:") then Reply(None, true)
    else if StartsWith(Upper(text), "SPEAK:") then Reply(Some(Strip(text[6..])), false)
    else Reply(Some(text), false)
  }

  lemma UpperPrefix(p: String, rest: String)
    ensures Upper(p + rest)[..|p|] == Upper(p)
  {
  }

  /** "STOP:" is recognised in any letter case, whatever follows it. */
  lemma StopInAnyCase(p: String, rest: String)
    requires Upper(p) == "STOP:"
    ensures ParseResponse(p + rest) == Reply(None, true)
  {
    UpperPrefix(p, rest);
  }

  /** "SPEAK:" in any letter case is removed and the rest is stripped. */
  lemma SpeakInAnyCase(p: String, rest: String)
    requires Upper(p) == "SPEAK:"
    ensures ParseResponse(p + rest) == Reply(Some(Strip(rest)), false)
  {
    UpperPrefix(p, rest);
    assert Upper(p + rest)[..5] == "SPEAK";
    assert (p + rest)[6..] == rest;
  }

  /** A "SPEAK:" prefix followed by an already stripped answer yields exactly that answer. */
  lemma SpeakRoundTrip(answer: String)
    requires Strip(answer) == answer
    ensures ParseResponse("SPEAK:" + answer) == Reply(Some(answer), false)
  {
    UpperOfSpeak();
    SpeakInAnyCase("SPEAK:", answer);
  }

  lemma UpperOfSpeak()
    ensures Upper("SPEAK:") == "SPEAK:" && Upper("speak:") == "SPEAK:"
  {
    var u := Upper("speak:");
    assert u[0] == 'S' && u[1] == 'P' && u[2] == 'E' && u[3] == 'A' && u[4] == 'K' && u[5] == ':';
    var v := Upper("SPEAK:");
    assert v[0] == 'S' && v[1] == 'P' && v[2] == 'E' && v[3] == 'A' && v[4] == 'K' && v[5] == ':';
  }

  /**
   * `get_response`: the model is asked with the prompt text unless the query
   * mentions a screenshot and one was captured; then the vision request's
   * reply is parsed, and its failure becomes a spoken apology.
   */
  function GetResponse(query: String, history: seq<Message>, screenshot: Option<String>,
                       vision: Result<String, String>, model: String -> String): (r: Reply)
    ensures !Contains(Lower(query), "screenshot") || screenshot.None? || screenshot == Some("") ==>
      r == ParseResponse(Strip(model(PromptText(query, history))))
    ensures Contains(Lower(query), "screenshot") && screenshot.Some? && screenshot.value != [] && vision.Success? ==>
      r == ParseResponse(Strip(vision.value))
  {
    if Contains(Lower(query), "screenshot") && screenshot.Some? && screenshot.value != [] then
      match vision
      case Success(reply) => ParseResponse(Strip(reply))
      case Failure(e) => Reply(Some("Sorry, I couldn't analyze the screenshot: " + e), false)
    else
      ParseResponse(Strip(model(PromptText(query, history))))
  }

  /** A failed vision request never reads as STOP: Jarvis apologises out loud. */
  lemma VisionFailureIsSpoken(query: String, history: seq<Message>, image: String, e: String, model: String -> String)
    requires Contains(Lower(query), "screenshot") && image != []
    ensures GetResponse(query, history, Some(image), Failure(e), model) == Reply(Some("Sorry, I couldn't analyze the screenshot: " + e), false)
  {
  }
}
