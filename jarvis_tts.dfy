/**
 * The Jarvis text-to-speech helpers: the word chunker used before streaming
 * text to the TTS WebSocket, the guard of `speak_all`, and the HTTP client
 * that slices the returned PCM body into playback pieces on a queue read by
 * a playback loop until it meets the `None` sentinel.
 */
module JarvisTts {
  import opened Wrappers
  import opened Text
  import opened Chunking

  /** Bytes handed to the audio device in one write. */
  const PlaybackChunkSize: nat := 4800

  /**
   * `chunk_text(text, n)`: the words of `text`, `n` at a time, each group
   * joined by single spaces. A step of 0 makes Python's `range` raise, so
   * `n` must be positive.
   */
  function ChunkText(text: String, n: nat): (chunks: seq<String>)
    requires n > 0
    ensures |chunks| == |Chunks(Words(text), n)|
  {
    var groups := Chunks(Words(text), n);
    seq(|groups|, i requires 0 <= i < |groups| => Join(" ", groups[i]))
  }

  /** Every group of words produced by the chunker is made of words of `text`. */
  lemma GroupsAreWords(text: String, n: nat)
    requires n > 0
    ensures forall i, j :: 0 <= i < |Chunks(Words(text), n)| && 0 <= j < |Chunks(Words(text), n)[i]| ==>
      Chunks(Words(text), n)[i][j] != [] && NoSpace(Chunks(Words(text), n)[i][j])
  {
    var ws := Words(text);
    ChunksFlattenMembers(ws, n);
  }

  /** An element of a slice is an element of the sliced sequence. */
  lemma {:induction false} ChunksFlattenMembers<T>(s: seq<T>, n: nat)
    requires n > 0
    ensures forall i, j :: 0 <= i < |Chunks(s, n)| && 0 <= j < |Chunks(s, n)[i]| ==> Chunks(s, n)[i][j] in s
    decreases |s|
  {
    if |s| > n {
      ChunksFlattenMembers(s[n..], n);
      var cs := Chunks(s, n);
      forall i, j | 0 <= i < |cs| && 0 <= j < |cs[i]| ensures cs[i][j] in s {
        if i == 0 {
          assert cs[0] == s[..n];
          assert cs[i][j] == s[j];
        } else {
          assert cs[i] == Chunks(s[n..], n)[i - 1];
          assert cs[i][j] in s[n..];
        }
      }
    }
  }

  /** Each chunk holds between 1 and n words, and every chunk but the last exactly n. */
  lemma ChunkTextSizes(text: String, n: nat)
    requires n > 0
    ensures forall i :: 0 <= i < |ChunkText(text, n)| ==> 0 < |Words(ChunkText(text, n)[i])| <= n
    ensures forall i :: 0 <= i < |ChunkText(text, n)| - 1 ==> |Words(ChunkText(text, n)[i])| == n
  {
    var groups := Chunks(Words(text), n);
    var chunks := ChunkText(text, n);
    GroupsAreWords(text, n);
    ChunkSizes(Words(text), n);
    forall i | 0 <= i < |chunks| ensures Words(chunks[i]) == groups[i] {
      WordsOfJoin(groups[i]);
    }
  }

  /**
   * The chunks joined by single spaces are the words of the text joined by
   * single spaces: words keep their order and none is split.
   */
  lemma ChunkTextJoin(text: String, n: nat)
    requires n > 0
    ensures Join(" ", ChunkText(text, n)) == Join(" ", Words(text))
  {
    var ws := Words(text);
    ChunkSizes(ws, n);
    ChunksFlatten(ws, n);
    JoinGroups(Chunks(ws, n));
  }

  /** Joining joined non-empty groups is joining their concatenation. */
  lemma {:induction false} JoinGroups(groups: seq<seq<String>>)
    requires forall i :: 0 <= i < |groups| ==> groups[i] != []
    ensures Join(" ", seq(|groups|, i requires 0 <= i < |groups| => Join(" ", groups[i]))) == Join(" ", Flatten(groups))
    decreases |groups|
  {
    var joined := seq(|groups|, i requires 0 <= i < |groups| => Join(" ", groups[i]));
    if |groups| == 1 {
      assert Flatten(groups) == groups[0] + Flatten(groups[1..]);
      assert groups[0] + [] == groups[0];
    } else if |groups| > 1 {
      var tail := groups[1..];
      var joinedTail := seq(|tail|, i requires 0 <= i < |tail| => Join(" ", tail[i]));
      assert joined[1..] == joinedTail;
      JoinGroups(tail);
      assert Flatten(groups) == groups[0] + Flatten(tail);
      ChunkFlattenNonEmpty(tail);
      JoinAppend(" ", groups[0], Flatten(tail));
    }
  }

  lemma {:induction false} ChunkFlattenNonEmpty(groups: seq<seq<String>>)
    requires |groups| > 0 && forall i :: 0 <= i < |groups| ==> groups[i] != []
    ensures Flatten(groups) != []
  {
    assert Flatten(groups) == groups[0] + Flatten(groups[1..]);
  }

  /** There are ceil(words / n) chunks. */
  lemma ChunkTextCount(text: String, n: nat)
    requires n > 0
    ensures |ChunkText(text, n)| == CeilDiv(|Words(text)|, n)
  {
    var ws := Words(text);
    var cs := ChunkText(text, n);
    ChunkCount(ws, n);
    assert |cs| == |Chunks(ws, n)|;
  }

  /** Empty or blank text gives no chunk at all. */
  lemma ChunkTextBlank(text: String, n: nat)
    requires n > 0
    requires forall i :: 0 <= i < |text| ==> IsSpace(text[i])
    ensures ChunkText(text, n) == []
  {
    WordsOfBlank(text);
  }

  /** One text message of the TTS WebSocket protocol. */
  datatype SpeechRequest = SpeechRequest(text: String, voice: String, sampleRate: nat)

  /**
   * The messages `speak_all` sends: one per chunk, in order; an empty chunk
   * list returns before anything is sent.
   */
  function SpeakAllRequests(chunks: seq<String>, voice: String, sampleRate: nat): (sent: seq<SpeechRequest>)
    ensures |sent| == |chunks|
    ensures forall i :: 0 <= i < |chunks| ==> sent[i] == SpeechRequest(chunks[i], voice, sampleRate)
  {
    if chunks == [] then []
    else seq(|chunks|, i requires 0 <= i < |chunks| => SpeechRequest(chunks[i], voice, sampleRate))
  }

  /** The answer of the speech endpoint. */
  datatype HttpResponse = HttpResponse(status: int, body: seq<Byte>)

  /** An item of the playback queue: audio bytes, or `None`, the stop sentinel. */
  type QueueItem = Option<seq<Byte>>

  /** The queue items for a response body: its 4800-byte slices, in order. */
  function Pieces(body: seq<Byte>): (q: seq<QueueItem>)
    ensures |q| == |Chunks(body, PlaybackChunkSize)|
    ensures forall i :: 0 <= i < |q| ==> q[i] == Some(Chunks(body, PlaybackChunkSize)[i])
  {
    var cs := Chunks(body, PlaybackChunkSize);
    seq(|cs|, i requires 0 <= i < |cs| => Some(cs[i]))
  }

  /** One turn of the slicing loop at offset `i`. */
  lemma PiecesStep(audio: seq<Byte>, i: nat)
    requires i < |audio|
    ensures Pieces(audio[i..]) ==
      [Some(audio[i..Min(i + PlaybackChunkSize, |audio|)])] + Pieces(audio[Min(i + PlaybackChunkSize, |audio|)..])
  {
    var rest := audio[i..];
    ChunksStep(rest, PlaybackChunkSize);
    var k := Min(PlaybackChunkSize, |rest|);
    assert rest[..k] == audio[i..Min(i + PlaybackChunkSize, |audio|)];
    assert rest[k..] == audio[Min(i + PlaybackChunkSize, |audio|)..];
    var cs := Chunks(rest, PlaybackChunkSize);
    assert Pieces(rest) == [Some(rest[..k])] + Pieces(rest[k..]);
  }

  lemma QueueAssoc(q: seq<QueueItem>, x: QueueItem, rest: seq<QueueItem>)
    ensures (q + [x]) + rest == q + ([x] + rest)
  {
  }

  /** The audio the playback loop writes from queue `q`: every item before the first sentinel. */
  function Playable(q: seq<QueueItem>): (out: seq<seq<Byte>>)
    ensures |out| <= |q|
    ensures forall i :: 0 <= i < |out| ==> q[i] == Some(out[i])
    ensures |out| < |q| ==> q[|out|] == None
  {
    if q == [] || q[0].None? then [] else [q[0].value] + Playable(q[1..])
  }

  /** What is left on the queue once the playback loop has taken the sentinel. */
  function AfterSentinel(q: seq<QueueItem>): (rest: seq<QueueItem>)
    ensures |rest| < |q| || rest == []
    ensures q == [] ==> rest == []
  {
    if q == [] then []
    else if q[0].None? then q[1..]
    else AfterSentinel(q[1..])
  }

  /** The first turn of the playback loop. */
  lemma PlayableCons(q: seq<QueueItem>)
    requires q != []
    ensures q[0].None? ==> Playable(q) == [] && AfterSentinel(q) == q[1..]
    ensures q[0].Some? ==> Playable(q) == [q[0].value] + Playable(q[1..]) && AfterSentinel(q) == AfterSentinel(q[1..])
  {
  }

  lemma PlayedAssoc(written: seq<seq<Byte>>, x: seq<Byte>, rest: seq<seq<Byte>>)
    ensures written + ([x] + rest) == (written + [x]) + rest
  {
  }

  /** Nothing queued behind the sentinel is played. */
  lemma {:induction false} SentinelEndsPlayback(q: seq<QueueItem>, later: seq<QueueItem>)
    ensures Playable(q + [None] + later) == Playable(q + [None])
    ensures None !in q ==> Playable(q + [None]) == Playable(q) && AfterSentinel(q + [None] + later) == later
    decreases |q|
  {
    if q == [] {
      assert (q + [None] + later)[0] == None;
      assert (q + [None] + later)[1..] == later;
    } else {
      assert (q + [None] + later)[1..] == q[1..] + [None] + later;
      assert (q + [None])[1..] == q[1..] + [None];
      SentinelEndsPlayback(q[1..], later);
    }
  }

  /** Audio queued behind other audio is played after it. */
  lemma {:induction false} PlayableAppend(q: seq<QueueItem>, more: seq<QueueItem>)
    requires None !in q
    ensures Playable(q + more) == Playable(q) + Playable(more)
    decreases |q|
  {
    if q == [] {
      assert q + more == more;
    } else {
      assert (q + more)[1..] == q[1..] + more;
      PlayableAppend(q[1..], more);
    }
  }

  /**
   * The pieces of a body are played whole: at most 4800 bytes each, all but
   * the last exactly 4800, and together the body in order.
   */
  lemma PiecesPlayBody(body: seq<Byte>)
    ensures None !in Pieces(body)
    ensures forall i :: 0 <= i < |Playable(Pieces(body))| ==> 0 < |Playable(Pieces(body))[i]| <= PlaybackChunkSize
    ensures forall i :: 0 <= i < |Playable(Pieces(body))| - 1 ==> |Playable(Pieces(body))[i]| == PlaybackChunkSize
    ensures Flatten(Playable(Pieces(body))) == body
  {
    var q := Pieces(body);
    PlayablePieces(q);
    var cs := Chunks(body, PlaybackChunkSize);
    assert Playable(q) == cs;
    ChunkSizes(body, PlaybackChunkSize);
    ChunksFlatten(body, PlaybackChunkSize);
  }

  lemma {:induction false} PlayablePieces(q: seq<QueueItem>)
    requires forall i :: 0 <= i < |q| ==> q[i].Some?
    ensures None !in q
    ensures |Playable(q)| == |q| && forall i :: 0 <= i < |q| ==> q[i] == Some(Playable(q)[i])
    decreases |q|
  {
    if q != [] {
      PlayablePieces(q[1..]);
    }
  }

  /** The HTTP client: a playback queue and the flag that ends the playback loop. */
  class TtsClient {
    var audioQueue: seq<QueueItem>
    var stopPlayback: bool
    /** The texts posted to the speech endpoint, in order. */
    var requests: seq<String>

    constructor ()
      ensures audioQueue == [] && !stopPlayback && requests == []
    {
      audioQueue := [];
      stopPlayback := false;
      requests := [];
    }

    /**
     * `speak`: blank text returns before any request; a non-200 answer queues
     * nothing; otherwise the body's 4800-byte slices are queued in order.
     * `response` stands for the endpoint's answer to this text.
     */
    method Speak(text: String, response: HttpResponse)
      modifies this
      ensures stopPlayback == old(stopPlayback)
      ensures Strip(text) == [] ==> requests == old(requests) && audioQueue == old(audioQueue)
      ensures Strip(text) != [] ==> requests == old(requests) + [text]
      ensures Strip(text) != [] && response.status != 200 ==> audioQueue == old(audioQueue)
      ensures Strip(text) != [] && response.status == 200 ==> audioQueue == old(audioQueue) + Pieces(response.body)
    {
      if Strip(text) == [] {
        return;
      }
      requests := requests + [text];
      if response.status != 200 {
        return;
      }
      QueuePieces(response.body);
    }

    /** The slicing loop of `speak`: queue the body's 4800-byte slices in order. */
    method QueuePieces(audio: seq<Byte>)
      modifies this
      ensures audioQueue == old(audioQueue) + Pieces(audio)
      ensures stopPlayback == old(stopPlayback) && requests == old(requests)
    {
      var i := 0;
      while i < |audio|
        invariant i <= |audio|
        invariant stopPlayback == old(stopPlayback) && requests == old(requests)
        invariant audioQueue + Pieces(audio[i..]) == old(audioQueue) + Pieces(audio)
        decreases |audio| - i
      {
        var j := Min(i + PlaybackChunkSize, |audio|);
        PiecesStep(audio, i);
        QueueAssoc(audioQueue, Some(audio[i..j]), Pieces(audio[j..]));
        audioQueue := audioQueue + [Some(audio[i..j])];
        i := j;
      }
      assert audio[i..] == [];
    }

    /** `stop`: raise the flag, then queue the sentinel that wakes the playback loop. */
    method Stop()
      modifies this
      ensures stopPlayback
      ensures audioQueue == old(audioQueue) + [None]
      ensures requests == old(requests)
    {
      stopPlayback := true;
      audioQueue := audioQueue + [None];
    }

    /**
     * `_play_audio`, run until the queue is drained: items are written in
     * order until the sentinel is taken, and nothing is written once the
     * flag is up.
     */
    method PlayAudio() returns (written: seq<seq<Byte>>)
      modifies this
      ensures old(stopPlayback) ==> written == [] && audioQueue == old(audioQueue)
      ensures !old(stopPlayback) ==> written == Playable(old(audioQueue)) && audioQueue == AfterSentinel(old(audioQueue))
      ensures stopPlayback == old(stopPlayback) && requests == old(requests)
    {
      written := [];
      if stopPlayback {
        return;
      }
      while audioQueue != []
        invariant !stopPlayback && requests == old(requests)
        invariant written + Playable(audioQueue) == Playable(old(audioQueue))
        invariant AfterSentinel(audioQueue) == AfterSentinel(old(audioQueue))
        decreases |audioQueue|
      {
        var data := audioQueue[0];
        PlayableCons(audioQueue);
        audioQueue := audioQueue[1..];
        if data.None? {
          break;
        }
        PlayedAssoc(written, data.value, Playable(audioQueue));
        written := written + [data.value];
      }
    }
  }
}
