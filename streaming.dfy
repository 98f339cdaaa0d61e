/**
 * The Pulse real-time speech-to-text client: the WebSocket URL it opens, the
 * 3200-byte audio frames it streams from a WAV file followed by the end
 * marker, the way it sorts the server's messages into transcript callbacks,
 * silently dropped time-outs and reported errors, and the full transcript the
 * command line prints at the end.
 */
module Streaming {
  import opened Wrappers
  import opened Text
  import opened Chunking

  const Endpoint: String := "wss://waves-api.smallest.ai/api/v1/pulse/get_text"
  const DefaultLanguage: String := "en"
  const DefaultSampleRate: int := 16000

  /** About 100 ms of 16 kHz 16-bit mono audio. */
  const FrameSize: nat := 3200

  /** `json.dumps({"type": "end"})`. */
  const EndMarker: String := "{\"type\": \"end\"}"

  const UnknownError: String := "Unknown error"
  const TimeoutText: String := "timed out"
  const NoSpeech: String := "(no speech detected)"

  // ---------------------------------------------------------------------
  // The connection URL

  datatype Param = Param(key: String, value: String)

  /** The query parameters, in the order the client lists them. */
  function Params(language: String, sampleRate: int): seq<Param> {
    [ Param("language", language),
      Param("encoding", "linear16"),
      Param("sample_rate", IntToString(sampleRate)),
      Param("word_timestamps", "true"),
      Param("full_transcript", "true") ]
  }

  /** `f"{k}={v}"`. */
  function Field(p: Param): String {
    p.key + "=" + p.value
  }

  function Fields(ps: seq<Param>): (fs: seq<String>)
    ensures |fs| == |ps|
    ensures forall i :: 0 <= i < |ps| ==> fs[i] == Field(ps[i])
  {
    seq(|ps|, i requires 0 <= i < |ps| => Field(ps[i]))
  }

  function Query(ps: seq<Param>): String {
    Join("&", Fields(ps))
  }

  /** `_build_url`. */
  function BuildUrl(language: String, sampleRate: int): (url: String)
    ensures |url| > |Endpoint| && url[..|Endpoint| + 1] == Endpoint + "?"
  {
    Endpoint + "?" + Query(Params(language, sampleRate))
  }

  /** The reading a server gives a field: the key up to the first `=`, the value after it. */
  function ParseField(f: String): Param {
    if '=' in f then Param(f[..FirstIndex(f, '=')], f[FirstIndex(f, '=') + 1..]) else Param(f, [])
  }

  /** The parameters of a query string, split on `&`. */
  function ParseQuery(q: String): (ps: seq<Param>)
    ensures |ps| == |SplitOn(q, '&')|
  {
    var fs := SplitOn(q, '&');
    seq(|fs|, i requires 0 <= i < |fs| => ParseField(fs[i]))
  }

  /** A parameter that survives the trip through a query string. */
  predicate Encodable(p: Param) {
    '=' !in p.key && '&' !in p.key && '&' !in p.value
  }

  lemma FieldRoundTrip(p: Param)
    requires '=' !in p.key
    ensures ParseField(Field(p)) == p
  {
    var f := Field(p);
    assert f == p.key + ['='] + p.value;
    FirstIndexAfter(p.key, '=', p.value);
    assert f[..|p.key|] == p.key;
    assert f[|p.key| + 1..] == p.value;
  }

  /** Reading a query back gives the parameters it was built from, in order. */
  lemma QueryRoundTrip(ps: seq<Param>)
    requires |ps| >= 1
    requires forall i :: 0 <= i < |ps| ==> Encodable(ps[i])
    ensures ParseQuery(Query(ps)) == ps
  {
    var fs := Fields(ps);
    forall i | 0 <= i < |fs|
      ensures '&' !in fs[i]
    {
      assert fs[i] == ps[i].key + "=" + ps[i].value;
    }
    assert "&" == ['&'];
    SplitOnJoin(fs, '&');
    forall i | 0 <= i < |ps|
      ensures ParseField(fs[i]) == ps[i]
    {
      FieldRoundTrip(ps[i]);
    }
  }

  lemma NoAmpersandInNumber(n: int)
    ensures '&' !in IntToString(n)
  {
    if n < 0 {
      assert IntToString(n) == "-" + NatToString(-n);
    }
  }

  /**
   * The URL is the endpoint and a query from which the five parameters are
   * read back in order, with the language and sample rate given, as long as
   * the language code holds no `&`.
   */
  lemma BuildUrlRoundTrip(language: String, sampleRate: int)
    requires '&' !in language
    ensures ParseQuery(BuildUrl(language, sampleRate)[|Endpoint| + 1..]) == Params(language, sampleRate)
  {
    var ps := Params(language, sampleRate);
    ParamsEncodable(language, sampleRate);
    QueryRoundTrip(ps);
    AfterPrefix(Endpoint + "?", Query(ps));
  }

  lemma ParamsEncodable(language: String, sampleRate: int)
    requires '&' !in language
    ensures forall i :: 0 <= i < |Params(language, sampleRate)| ==> Encodable(Params(language, sampleRate)[i])
  {
    var ps := Params(language, sampleRate);
    NoAmpersandInNumber(sampleRate);
    PlainKey("language");
    PlainKey("encoding");
    PlainKey("sample_rate");
    PlainKey("word_timestamps");
    PlainKey("full_transcript");
    assert '&' !in "linear16" && '&' !in "true";
    forall i | 0 <= i < |ps|
      ensures Encodable(ps[i])
    {
      if i == 0 {
      } else if i == 1 {
      } else if i == 2 {
      } else if i == 3 {
      } else {
      }
    }
  }

  lemma PlainKey(k: String)
    requires forall i :: 0 <= i < |k| ==> 'a' <= k[i] <= 'z' || k[i] == '_'
    ensures '=' !in k && '&' !in k
  {
  }

  lemma AfterPrefix(p: String, q: String)
    ensures (p + q)[|p|..] == q
  {
  }

  // ---------------------------------------------------------------------
  // Messages from the server

  /**
   * A WebSocket message: one that is not JSON, JSON that is not an object
   * (`response.get` then raises an error nothing in the receive loop
   * catches), or a JSON object's fields of interest.
   */
  datatype Message =
    | Malformed
    | NotObject
    | Response(status: Option<String>, message: Option<String>, transcript: Option<String>, isFinal: Option<bool>)

  /** What the receive loop does with one message. */
  datatype Outcome =
    | Delivered(text: String, isFinal: bool)
    | ApiError(message: String)
    | TimedOut
    | ParseError
    | Ignored
    | Crashed

  predicate IsError(m: Message) {
    m.Response? && m.status == Some("error")
  }

  function ErrorMessage(m: Message): String
    requires m.Response?
  {
    m.message.GetOr(UnknownError)
  }

  /** `"timed out" in str(msg).lower()`. */
  predicate IsTimeout(msg: String) {
    Contains(Lower(msg), TimeoutText)
  }

  /** One message, as `_receive_transcripts` handles it. */
  function Receive(m: Message): (o: Outcome)
    ensures o.Delivered? <==> !IsError(m) && m.Response? && m.transcript.Some? && m.transcript.value != []
    ensures o.Delivered? ==> o.text == m.transcript.value && (o.isFinal <==> m.isFinal == Some(true))
    ensures o.TimedOut? <==> IsError(m) && IsTimeout(ErrorMessage(m))
    ensures o.ApiError? <==> IsError(m) && !IsTimeout(ErrorMessage(m))
    ensures o.ApiError? ==> o.message == ErrorMessage(m)
    ensures o.ParseError? <==> m.Malformed?
    ensures o.Crashed? <==> m.NotObject?
  {
    match m
    case Malformed => ParseError
    case NotObject => Crashed
    case Response(status, _, transcript, isFinal) =>
      if status == Some("error") then
        if IsTimeout(ErrorMessage(m)) then TimedOut else ApiError(ErrorMessage(m))
      else if transcript.Some? && transcript.value != [] then
        Delivered(transcript.value, isFinal == Some(true))
      else Ignored
  }

  /** Whether the error test ignores case: a message and its lower-case form are treated alike. */
  lemma TimeoutIgnoresCase(msg: String)
    ensures IsTimeout(msg) <==> IsTimeout(Lower(msg))
  {
    assert Lower(Lower(msg)) == Lower(msg);
  }

  /** One call of `on_transcript(text, is_final)`. */
  datatype Call = Call(text: String, isFinal: bool)

  /** The callbacks made for a run of messages. */
  function Calls(ms: seq<Message>): seq<Call> {
    if ms == [] then []
    else
      var o := Receive(ms[|ms| - 1]);
      Calls(ms[..|ms| - 1]) + (if o.Delivered? then [Call(o.text, o.isFinal)] else [])
  }

  /** The API errors shown for a run of messages. */
  function Reported(ms: seq<Message>): seq<String> {
    if ms == [] then []
    else
      var o := Receive(ms[|ms| - 1]);
      Reported(ms[..|ms| - 1]) + (if o.ApiError? then [o.message] else [])
  }

  /**
   * The messages the receive loop gets through: those before the first one
   * that is not a JSON object, whose error ends the loop.
   */
  function Handled(ms: seq<Message>): (h: seq<Message>)
    ensures |h| <= |ms| && h == ms[..|h|]
    ensures forall i :: 0 <= i < |h| ==> !h[i].NotObject?
    ensures |h| < |ms| ==> ms[|h|].NotObject?
  {
    if ms == [] || ms[0].NotObject? then [] else [ms[0]] + Handled(ms[1..])
  }

  /** The prefix the loop stops at is the handled one. */
  lemma HandledAt(ms: seq<Message>, i: nat)
    requires i <= |ms| && (i == |ms| || ms[i].NotObject?)
    requires forall j :: 0 <= j < i ==> !ms[j].NotObject?
    ensures Handled(ms) == ms[..i]
  {
  }

  /** Once a message that is not an object arrives, nothing after it is handled. */
  lemma NothingAfterNotObject(ms: seq<Message>, k: nat)
    requires k < |ms| && ms[k].NotObject?
    ensures |Handled(ms)| <= k
    ensures Handled(ms) == Handled(ms[..k])
  {
    var h := Handled(ms);
    var j := |h|;
    assert forall i :: 0 <= i < j ==> ms[..k][i] == h[i];
    HandledAt(ms[..k], j);
  }

  /** The messages up to `i` and the one after. */
  lemma ReceivedSnoc(ms: seq<Message>, i: nat)
    requires i < |ms|
    ensures Calls(ms[..i + 1]) == Calls(ms[..i]) + Calls([ms[i]])
    ensures Reported(ms[..i + 1]) == Reported(ms[..i]) + Reported([ms[i]])
  {
    assert ms[..i + 1][..i] == ms[..i];
    assert [ms[i]][..0] == [];
  }

  lemma CallsAssoc(a: seq<Call>, b: seq<Call>, c: seq<Call>)
    ensures (a + b) + c == a + (b + c)
  {
  }

  lemma ReportedAssoc(a: seq<String>, b: seq<String>, c: seq<String>)
    ensures (a + b) + c == a + (b + c)
  {
  }

  /** Every callback carries a non-empty transcript of a message that is not an error. */
  lemma {:induction false} CallsFromTranscripts(ms: seq<Message>)
    ensures forall c :: c in Calls(ms) ==>
      c.text != [] && exists i :: 0 <= i < |ms| && !IsError(ms[i]) && ms[i].Response? && ms[i].transcript == Some(c.text)
    decreases |ms|
  {
    if ms != [] {
      var init := ms[..|ms| - 1];
      CallsFromTranscripts(init);
      forall c | c in Calls(ms)
        ensures c.text != [] && exists i :: 0 <= i < |ms| && !IsError(ms[i]) && ms[i].Response? && ms[i].transcript == Some(c.text)
      {
        if c in Calls(init) {
          var i :| 0 <= i < |init| && !IsError(init[i]) && init[i].Response? && init[i].transcript == Some(c.text);
          assert ms[i] == init[i];
        } else {
          assert ms[|ms| - 1].transcript == Some(c.text);
        }
      }
    }
  }

  /** No reported error mentions a time-out: those are dropped silently. */
  lemma {:induction false} TimeoutsNeverReported(ms: seq<Message>)
    ensures forall e :: e in Reported(ms) ==> !IsTimeout(e)
    decreases |ms|
  {
    if ms != [] {
      TimeoutsNeverReported(ms[..|ms| - 1]);
    }
  }

  /** A message is a final transcript: not an error, a non-empty transcript, `is_final` true. */
  predicate IsFinalTranscript(m: Message) {
    m.Response? && m.status != Some("error") && m.transcript.Some? && m.transcript.value != [] && m.isFinal == Some(true)
  }

  /** The texts of the final transcripts among the messages, read straight off them. */
  function FinalTranscripts(ms: seq<Message>): seq<String> {
    if ms == [] then []
    else
      var m := ms[|ms| - 1];
      FinalTranscripts(ms[..|ms| - 1]) + (if IsFinalTranscript(m) then [m.transcript.value] else [])
  }

  /** `handle_transcript` in `main`: the texts of the final callbacks, in order. */
  function Finals(cs: seq<Call>): seq<String> {
    if cs == [] then []
    else Finals(cs[..|cs| - 1]) + (if cs[|cs| - 1].isFinal then [cs[|cs| - 1].text] else [])
  }

  lemma {:induction false} FinalsAppend(a: seq<Call>, b: seq<Call>)
    ensures Finals(a + b) == Finals(a) + Finals(b)
    decreases |b|
  {
    if b == [] {
      assert a + b == a;
    } else {
      assert (a + b)[..|a + b| - 1] == a + b[..|b| - 1];
      FinalsAppend(a, b[..|b| - 1]);
    }
  }

  /** What `main` collects is exactly the final transcripts the server sent, in order. */
  lemma {:induction false} CollectedAreFinalTranscripts(ms: seq<Message>)
    ensures Finals(Calls(ms)) == FinalTranscripts(ms)
    decreases |ms|
  {
    if ms != [] {
      var init := ms[..|ms| - 1];
      var o := Receive(ms[|ms| - 1]);
      var tail := if o.Delivered? then [Call(o.text, o.isFinal)] else [];
      FinalsAppend(Calls(init), tail);
      CollectedAreFinalTranscripts(init);
      if o.Delivered? {
        assert Finals(tail) == Finals([]) + (if o.isFinal then [o.text] else []);
      }
    }
  }

  /** The text printed under FULL TRANSCRIPT. */
  function FullTranscript(finals: seq<String>): String {
    if finals == [] then NoSpeech else Join(" ", finals)
  }

  lemma OccursAfterPrefix(a: String, t: String, w: String, j: nat)
    requires OccursAt(t, w, j)
    ensures OccursAt(a + t, w, |a| + j)
  {
    assert (a + t)[|a| + j..|a| + j + |w|] == t[j..j + |w|];
  }

  lemma {:induction false} JoinContainsEach(sep: String, xs: seq<String>, i: nat)
    requires i < |xs|
    ensures Contains(Join(sep, xs), xs[i])
    decreases |xs|
  {
    var s := Join(sep, xs);
    if i == 0 {
      if |xs| > 1 {
        assert s == xs[0] + (sep + Join(sep, xs[1..]));
      }
      assert s[..|xs[0]|] == xs[0];
      ContainsAt(s, xs[0], 0);
    } else {
      JoinContainsEach(sep, xs[1..], i - 1);
      var rest := Join(sep, xs[1..]);
      var j := IndexOf(rest, xs[i]).value;
      assert s == (xs[0] + sep) + rest;
      OccursAfterPrefix(xs[0] + sep, rest, xs[i], j);
      ContainsAt(s, xs[i], |xs[0] + sep| + j);
    }
  }

  /**
   * The printed transcript is the placeholder when no final transcript
   * arrived, and otherwise contains every final transcript the server sent.
   */
  lemma SessionTranscript(ms: seq<Message>)
    ensures FinalTranscripts(ms) == [] ==> FullTranscript(Finals(Calls(ms))) == NoSpeech
    ensures forall i :: 0 <= i < |FinalTranscripts(ms)| ==>
      Contains(FullTranscript(Finals(Calls(ms))), FinalTranscripts(ms)[i])
  {
    CollectedAreFinalTranscripts(ms);
    var fs := FinalTranscripts(ms);
    forall i | 0 <= i < |fs|
      ensures Contains(FullTranscript(fs), fs[i])
    {
      JoinContainsEach(" ", fs, i);
    }
  }

  // ---------------------------------------------------------------------
  // Streaming a file

  /** A WebSocket frame: binary audio, or text. */
  datatype Frame = Audio(bytes: seq<Byte>) | TextFrame(text: String)

  function AudioFrames(chunks: seq<seq<Byte>>): (fs: seq<Frame>)
    ensures |fs| == |chunks|
    ensures forall i :: 0 <= i < |chunks| ==> fs[i] == Audio(chunks[i])
  {
    seq(|chunks|, i requires 0 <= i < |chunks| => Audio(chunks[i]))
  }

  /**
   * The frames `_stream_file` sends over a connection that accepts
   * `capacity` more frames before it closes: audio slices while the client
   * runs and the connection holds, then the end marker if the connection is
   * still open.
   */
  function Streamed(audio: seq<Byte>, running: bool, capacity: nat): seq<Frame> {
    var chunks := Chunks(audio, FrameSize);
    var k := if running then Min(|chunks|, capacity) else 0;
    AudioFrames(chunks[..k]) + (if capacity > k then [TextFrame(EndMarker)] else [])
  }

  /** Everything the server receives is a prefix of the audio, in order, then at most one end marker. */
  lemma StreamedPrefix(audio: seq<Byte>, running: bool, capacity: nat)
    ensures var fs := Streamed(audio, running, capacity);
      forall i :: 0 <= i < |fs| - 1 ==> fs[i].Audio? && 0 < |fs[i].bytes| <= FrameSize
    ensures var fs := Streamed(audio, running, capacity);
      forall i :: 0 <= i < |fs| && fs[i].TextFrame? ==> i == |fs| - 1 && fs[i].text == EndMarker
  {
    ChunkSizes(audio, FrameSize);
  }

  /** A running client on a connection that stays open sends all of the audio and then the end marker. */
  lemma StreamedWhole(audio: seq<Byte>, capacity: nat)
    requires capacity > |Chunks(audio, FrameSize)|
    ensures var fs := Streamed(audio, true, capacity);
      |fs| >= 1 && fs[|fs| - 1] == TextFrame(EndMarker) && Flatten(Payloads(fs[..|fs| - 1])) == audio
  {
    var chunks := Chunks(audio, FrameSize);
    var fs := Streamed(audio, true, capacity);
    assert chunks[..|chunks|] == chunks;
    assert fs[..|fs| - 1] == AudioFrames(chunks);
    PayloadsOfAudio(chunks);
    ChunksFlatten(audio, FrameSize);
  }

  /**
   * A client that was stopped still sends the end marker if the connection is
   * open; a connection that closes mid-stream gets the audio it accepted and
   * no end marker.
   */
  lemma EndMarkerWhenOpen(audio: seq<Byte>, running: bool, capacity: nat)
    ensures !running ==> Streamed(audio, running, capacity) == (if capacity > 0 then [TextFrame(EndMarker)] else [])
    ensures running && capacity <= |Chunks(audio, FrameSize)| ==>
      Streamed(audio, running, capacity) == AudioFrames(Chunks(audio, FrameSize)[..capacity])
  {
    assert Chunks(audio, FrameSize)[..0] == [];
  }

  /** The audio carried by the audio frames. */
  function Payloads(fs: seq<Frame>): seq<seq<Byte>> {
    if fs == [] then []
    else if fs[0].Audio? then [fs[0].bytes] + Payloads(fs[1..])
    else Payloads(fs[1..])
  }

  lemma {:induction false} PayloadsOfAudio(chunks: seq<seq<Byte>>)
    ensures Payloads(AudioFrames(chunks)) == chunks
    decreases |chunks|
  {
    if chunks != [] {
      assert AudioFrames(chunks)[1..] == AudioFrames(chunks[1..]);
      PayloadsOfAudio(chunks[1..]);
    }
  }

  /** One turn of the sending loop at offset `i`, after `n` frames. */
  lemma FrameStep(audio: seq<Byte>, chunks: seq<seq<Byte>>, i: nat, n: nat)
    requires i < |audio| && n <= |chunks|
    requires Chunks(audio[i..], FrameSize) == chunks[n..]
    ensures Min(i + FrameSize, |audio|) <= |audio|
    ensures n < |chunks| && chunks[n] == audio[i..Min(i + FrameSize, |audio|)]
    ensures Chunks(audio[Min(i + FrameSize, |audio|)..], FrameSize) == chunks[n + 1..]
    ensures AudioFrames(chunks[..n + 1]) == AudioFrames(chunks[..n]) + [Audio(chunks[n])]
  {
    var j := Min(i + FrameSize, |audio|);
    var rest := audio[i..];
    ChunksStep(rest, FrameSize);
    assert rest[..Min(FrameSize, |rest|)] == audio[i..j];
    assert rest[Min(FrameSize, |rest|)..] == audio[j..];
    assert chunks[n..][1..] == chunks[n + 1..];
    assert chunks[..n + 1] == chunks[..n] + [chunks[n]];
  }

  lemma SentAppend(a: seq<Frame>, b: seq<Frame>, f: Frame)
    ensures (a + b) + [f] == a + (b + [f])
  {
  }

  /** Where the sending loop stops: every slice, none, or as many as the connection took. */
  lemma LoopExit(audio: seq<Byte>, running: bool, capacity: nat, n: nat, i: nat, closed: bool)
    requires n <= |Chunks(audio, FrameSize)| && n <= capacity && i <= |audio|
    requires Chunks(audio[i..], FrameSize) == Chunks(audio, FrameSize)[n..]
    requires closed ==> n == capacity && n < |Chunks(audio, FrameSize)|
    requires !running ==> n == 0
    requires !(i < |audio| && running && !closed)
    ensures n == (if running then Min(|Chunks(audio, FrameSize)|, capacity) else 0)
  {
    if running && !closed {
      assert audio[i..] == [];
    }
  }

  /**
   * The open WebSocket. `capacity` is how many more frames the server takes
   * before the connection closes; a send after that raises ConnectionClosed.
   */
  class Connection {
    var sent: seq<Frame>
    var capacity: nat

    constructor (capacity: nat)
      ensures sent == [] && this.capacity == capacity
    {
      sent := [];
      this.capacity := capacity;
    }

    /** `ws.send`, answering false where it raises ConnectionClosed. */
    method Send(f: Frame) returns (ok: bool)
      modifies this
      ensures ok <==> old(capacity) > 0
      ensures sent == (if ok then old(sent) + [f] else old(sent))
      ensures capacity == (if ok then old(capacity) - 1 else old(capacity))
    {
      if capacity == 0 {
        ok := false;
      } else {
        sent := sent + [f];
        capacity := capacity - 1;
        ok := true;
      }
    }
  }

  class PulseStreamingClient {
    const language: String
    const sampleRate: int
    var ws: Connection?
    var isRunning: bool
    /** The `on_transcript` calls made so far. */
    var calls: seq<Call>
    /** The API errors shown so far. */
    var reported: seq<String>

    constructor (language: String, sampleRate: int)
      ensures this.language == language && this.sampleRate == sampleRate
      ensures ws == null && !isRunning && calls == [] && reported == []
    {
      this.language := language;
      this.sampleRate := sampleRate;
      ws := null;
      isRunning := false;
      calls := [];
      reported := [];
    }

    /** The URL `start` connects to. */
    function Url(): String {
      BuildUrl(language, sampleRate)
    }

    /** `start` once the handshake succeeded: the flag is raised and the socket kept. */
    method Connected(conn: Connection)
      modifies this
      ensures isRunning && ws == conn
      ensures calls == old(calls) && reported == old(reported)
    {
      isRunning := true;
      ws := conn;
    }

    /** `stop`. */
    method Stop()
      modifies this
      ensures !isRunning
      ensures ws == old(ws) && calls == old(calls) && reported == old(reported)
    {
      isRunning := false;
    }

    /**
     * `_receive_transcripts` over the messages that arrive before the
     * connection closes; a message that is not a JSON object ends it.
     */
    method ReceiveTranscripts(messages: seq<Message>)
      modifies this
      ensures calls == old(calls) + Calls(Handled(messages))
      ensures reported == old(reported) + Reported(Handled(messages))
      ensures ws == old(ws) && isRunning == old(isRunning)
    {
      var i := 0;
      var crashed := false;
      while i < |messages| && !crashed
        invariant 0 <= i <= |messages|
        invariant crashed ==> i < |messages| && messages[i].NotObject?
        invariant forall j :: 0 <= j < i ==> !messages[j].NotObject?
        invariant calls == old(calls) + Calls(messages[..i])
        invariant reported == old(reported) + Reported(messages[..i])
        invariant ws == old(ws) && isRunning == old(isRunning)
        decreases |messages| - i, if crashed then 0 else 1
      {
        ReceivedSnoc(messages, i);
        crashed := HandleMessage(messages[i]);
        if !crashed {
          CallsAssoc(old(calls), Calls(messages[..i]), Calls([messages[i]]));
          ReportedAssoc(old(reported), Reported(messages[..i]), Reported([messages[i]]));
          i := i + 1;
        }
      }
      HandledAt(messages, i);
    }

    /**
     * One turn of `_receive_transcripts`: a transcript is delivered, an error
     * shown; `crashed` says the message raised out of the loop.
     */
    method HandleMessage(m: Message) returns (crashed: bool)
      modifies this
      ensures crashed <==> m.NotObject?
      ensures calls == old(calls) + Calls([m])
      ensures reported == old(reported) + Reported([m])
      ensures ws == old(ws) && isRunning == old(isRunning)
    {
      crashed := m.NotObject?;
      var o := Receive(m);
      assert [m][..0] == [];
      match o {
        case Delivered(text, isFinal) =>
          calls := calls + [Call(text, isFinal)];
        case ApiError(msg) =>
          reported := reported + [msg];
        case _ =>
      }
    }

    /**
     * `_stream_file` on the frames of a WAV file: 3200-byte slices while the
     * client runs, stopping at the first failed send, then the end marker.
     * Without a socket nothing is sent.
     */
    method StreamFile(audio: seq<Byte>)
      modifies ws
      ensures ws != null ==> ws.sent == old(ws.sent) + Streamed(audio, isRunning, old(ws.capacity))
    {
      if ws != null {
        var k := SendSlices(ws, audio);
        var _ := ws.Send(TextFrame(EndMarker));
      }
    }

    /** The slicing loop of `_stream_file`: answers how many slices went out. */
    method SendSlices(conn: Connection, audio: seq<Byte>) returns (k: nat)
      modifies conn
      ensures k == (if isRunning then Min(|Chunks(audio, FrameSize)|, old(conn.capacity)) else 0)
      ensures conn.capacity == old(conn.capacity) - k
      ensures conn.sent == old(conn.sent) + AudioFrames(Chunks(audio, FrameSize)[..k])
    {
      ghost var chunks := Chunks(audio, FrameSize);
      ghost var cap0 := conn.capacity;
      var i := 0;
      k := 0;
      var closed := false;
      assert audio[0..] == audio && chunks[0..] == chunks;
      while i < |audio| && isRunning && !closed
        invariant 0 <= k <= |chunks| && k <= cap0 && conn.capacity == cap0 - k && i <= |audio|
        invariant Chunks(audio[i..], FrameSize) == chunks[k..]
        invariant closed ==> k == cap0 && k < |chunks|
        invariant !isRunning ==> k == 0
        invariant conn.sent == old(conn.sent) + AudioFrames(chunks[..k])
        decreases |audio| - i, if closed then 0 else 1
      {
        var j := Min(i + FrameSize, |audio|);
        FrameStep(audio, chunks, i, k);
        var ok := conn.Send(Audio(audio[i..j]));
        if ok {
          SentAppend(old(conn.sent), AudioFrames(chunks[..k]), Audio(chunks[k]));
          k := k + 1;
          i := j;
        } else {
          closed := true;
        }
      }
      LoopExit(audio, isRunning, cap0, k, i, closed);
    }
  }
}
