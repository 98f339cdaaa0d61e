/**
 * The arithmetic and naming of the audio preprocessing utility: how
 * `chunk_long_audio` cuts a recording of `total` milliseconds into pieces of
 * `d` milliseconds and names them, and the default output names of the
 * command line. Decoding, resampling and writing the audio are not modelled:
 * a chunk is described by its span of milliseconds.
 */
module AudioChunks {
  import opened Wrappers
  import opened Text
  import opened Chunking

  /** The default chunk length of `chunk_long_audio`: five minutes in milliseconds. */
  const DefaultChunkMs: nat := 300000
  /** The default of the `--duration` option, in seconds. */
  const DefaultDurationSeconds: int := 300
  const MsPerSecond: int := 1000

  /** The milliseconds `[start, end)` of one chunk. */
  datatype Span = Span(start: nat, end: nat)

  /** `num_chunks`, written as the source's `(total + d - 1) // d`. */
  function NumChunks(total: nat, d: nat): nat
    requires d > 0
  {
    CeilDiv(total, d)
  }

  /**
   * The spans cut by `for start in range(from, total, d)`, each slice
   * `audio[start:start + d]` ending at `total` at the latest.
   */
  function Spans(from: nat, total: nat, d: nat): seq<Span>
    requires d > 0
    decreases total - from
  {
    if from >= total then [] else [Span(from, Min(from + d, total))] + Spans(from + d, total, d)
  }

  /** The samples of one span, as a slice clamped to the recording. */
  function Slice<T>(audio: seq<T>, sp: Span): seq<T> {
    if sp.start <= sp.end <= |audio| then audio[sp.start..sp.end] else []
  }

  function Slices<T>(audio: seq<T>, spans: seq<Span>): (r: seq<seq<T>>)
    ensures |r| == |spans|
  {
    if spans == [] then [] else [Slice(audio, spans[0])] + Slices(audio, spans[1..])
  }

  /**
   * Cutting the recording along the spans gives exactly the fixed-size
   * slicing of the samples: the chunks are contiguous, do not overlap, each
   * holds at most `d` milliseconds, all but the last exactly `d`.
   */
  lemma {:induction false} SpansSliceAudio<T>(audio: seq<T>, from: nat, d: nat)
    requires d > 0 && from <= |audio|
    ensures Slices(audio, Spans(from, |audio|, d)) == Chunks(audio[from..], d)
    decreases |audio| - from
  {
    var sp := Spans(from, |audio|, d);
    if from < |audio| {
      var next := Min(from + d, |audio|);
      var rest := Spans(from + d, |audio|, d);
      assert sp == [Span(from, next)] + rest;
      assert sp[1..] == rest;
      ChunksStep(audio[from..], d);
      assert audio[from..][..Min(d, |audio| - from)] == audio[from..next];
      if from + d < |audio| {
        SpansSliceAudio(audio, from + d, d);
        assert audio[from..][Min(d, |audio| - from)..] == audio[from + d..];
      } else {
        assert rest == [];
        assert audio[from..][Min(d, |audio| - from)..] == [];
      }
    }
  }

  /** Put back together, the chunks are the whole recording, in order. */
  lemma ChunksCoverRecording<T>(audio: seq<T>, d: nat)
    requires d > 0
    ensures Flatten(Slices(audio, Spans(0, |audio|, d))) == audio
  {
    SpansSliceAudio(audio, 0, d);
    ChunksFlatten(audio, d);
    assert audio[0..] == audio;
  }

  /** The loop runs `num_chunks` times. */
  lemma SpansCount(total: nat, d: nat)
    requires d > 0
    ensures |Spans(0, total, d)| == NumChunks(total, d)
  {
    var silence := seq(total, i => 0);
    SpansSliceAudio(silence, 0, d);
    ChunkCount(silence[0..], d);
  }

  /** Chunk `i` spans `[i * d, min((i + 1) * d, total))`. */
  lemma {:induction false} SpanBounds(from: nat, total: nat, d: nat)
    requires d > 0
    ensures forall i :: 0 <= i < |Spans(from, total, d)| ==>
      Spans(from, total, d)[i] == Span(from + i * d, Min(from + (i + 1) * d, total))
    decreases total - from
  {
    if from < total {
      var sp := Spans(from, total, d);
      var rest := Spans(from + d, total, d);
      SpanBounds(from + d, total, d);
      forall i | 1 <= i < |sp|
        ensures sp[i] == Span(from + i * d, Min(from + (i + 1) * d, total))
      {
        assert sp[i] == rest[i - 1];
        assert from + d + (i - 1) * d == from + i * d;
        assert from + d + i * d == from + (i + 1) * d;
      }
    }
  }

  /** One pass of the loop moves the first remaining span to the emitted ones. */
  lemma SpansStep(done: seq<Span>, start: nat, total: nat, d: nat, all: seq<Span>)
    requires d > 0 && start < total
    requires done + Spans(start, total, d) == all
    ensures (done + [Span(start, Min(start + d, total))]) + Spans(start + d, total, d) == all
  {
    var piece := Span(start, Min(start + d, total));
    var rest := Spans(start + d, total, d);
    assert Spans(start, total, d) == [piece] + rest;
    assert done + ([piece] + rest) == (done + [piece]) + rest;
  }

  /** `output_dir / f"{base_name}_chunk_{i:03d}.wav"`, with a normalised directory. */
  function ChunkPath(dir: String, stem: String, i: nat): String {
    dir + "/" + stem + "_chunk_" + Pad3(i) + ".wav"
  }

  lemma PathsSnoc(files: seq<String>, dir: String, stem: String)
    requires forall i :: 0 <= i < |files| ==> files[i] == ChunkPath(dir, stem, i)
    ensures forall i :: 0 <= i < |files| + 1 ==> (files + [ChunkPath(dir, stem, |files|)])[i] == ChunkPath(dir, stem, i)
  {
  }

  /**
   * `chunk_long_audio` after loading: the chunk files in index order and the
   * spans each one holds. A negative length makes `range` empty; a zero
   * length divides by zero in `num_chunks`.
   */
  method ChunkLongAudio(dir: String, stem: String, total: nat, d: int) returns (files: seq<String>, spans: seq<Span>)
    requires d != 0
    ensures d < 0 ==> files == [] && spans == []
    ensures d > 0 ==> spans == Spans(0, total, d)
    ensures |files| == |spans|
    ensures forall i :: 0 <= i < |files| ==> files[i] == ChunkPath(dir, stem, i)
  {
    files, spans := [], [];
    if d < 0 {
      return;
    }
    var start: nat := 0;
    while start < total
      invariant |files| == |spans|
      invariant forall i :: 0 <= i < |files| ==> files[i] == ChunkPath(dir, stem, i)
      invariant spans + Spans(start, total, d) == Spans(0, total, d)
      decreases total - start
    {
      var piece := Span(start, Min(start + d, total));
      SpansStep(spans, start, total, d, Spans(0, total, d));
      PathsSnoc(files, dir, stem);
      files := files + [ChunkPath(dir, stem, |files|)];
      spans := spans + [piece];
      start := start + d;
    }
  }

  lemma DigitCharInjective(a: nat, b: nat)
    requires a < 10 && b < 10
    ensures DigitChar(a) == DigitChar(b) ==> a == b
    ensures DigitChar(a) == '0' <==> a == 0
  {
    var digits := "0123456789";
    assert digits[0] == '0' && digits[1] == '1' && digits[2] == '2' && digits[3] == '3' && digits[4] == '4';
    assert digits[5] == '5' && digits[6] == '6' && digits[7] == '7' && digits[8] == '8' && digits[9] == '9';
  }

  /** Only zero is printed with a leading zero. */
  lemma {:induction false} LeadingDigit(n: nat)
    ensures NatToString(n)[0] == '0' <==> n == 0
    ensures n >= 10 ==> |NatToString(n)| >= 2
  {
    if n < 10 {
      DigitCharInjective(n, 0);
    } else {
      LeadingDigit(n / 10);
    }
  }

  /** Distinct numbers print differently. */
  lemma {:induction false} NatToStringInjective(a: nat, b: nat)
    ensures NatToString(a) == NatToString(b) ==> a == b
  {
    var sa, sb := NatToString(a), NatToString(b);
    if sa == sb {
      LeadingDigit(a);
      LeadingDigit(b);
      if a < 10 && b < 10 {
        DigitCharInjective(a, b);
      } else if a >= 10 && b >= 10 {
        var pa, pb := NatToString(a / 10), NatToString(b / 10);
        assert sa == pa + [DigitChar(a % 10)] && sb == pb + [DigitChar(b % 10)];
        assert pa == sa[..|sa| - 1] && pb == sb[..|sb| - 1];
        DigitCharInjective(a % 10, b % 10);
        NatToStringInjective(a / 10, b / 10);
      }
    }
  }

  /** Two zero-padded numbers are equal only when the numbers are. */
  lemma Pad3Injective(a: nat, b: nat)
    ensures Pad3(a) == Pad3(b) ==> a == b
  {
    var da, db := NatToString(a), NatToString(b);
    var za := if |da| < 3 then 3 - |da| else 0;
    var zb := if |db| < 3 then 3 - |db| else 0;
    if Pad3(a) == Pad3(b) {
      if za == zb {
        assert da == Pad3(a)[za..] && db == Pad3(b)[zb..];
        NatToStringInjective(a, b);
      } else if |da| < |db| {
        PaddingMismatch(a, b);
      } else {
        PaddingMismatch(b, a);
      }
    }
  }

  /** A number whose padding is longer shows a zero where the other one shows its leading digit. */
  lemma PaddingMismatch(a: nat, b: nat)
    requires |NatToString(a)| < |NatToString(b)|
    ensures Pad3(a) != Pad3(b)
  {
    var da, db := NatToString(a), NatToString(b);
    LeadingDigit(a);
    LeadingDigit(b);
    if |db| < 3 {
      var k := 3 - |db|;
      assert Pad3(a)[k] == '0';
      assert Pad3(b)[k] == db[0];
    } else if |da| < 3 && |db| == 3 {
      assert b != 0;
      assert Pad3(a)[0] == '0';
      assert Pad3(b)[0] == db[0];
    } else {
      assert |Pad3(b)| == |db|;
      assert |Pad3(a)| == (if |da| < 3 then 3 else |da|);
    }
  }

  /** Every chunk gets its own file: no two indices share a name. */
  lemma ChunkPathsDistinct(dir: String, stem: String, i: nat, j: nat)
    requires i != j
    ensures ChunkPath(dir, stem, i) != ChunkPath(dir, stem, j)
  {
    var p := dir + "/" + stem + "_chunk_";
    if ChunkPath(dir, stem, i) == ChunkPath(dir, stem, j) {
      SameFrame(p, Pad3(i), Pad3(j), ".wav");
      Pad3Injective(i, j);
    }
  }

  /** Two strings with the same text around them are equal. */
  lemma SameFrame(p: String, u: String, v: String, ext: String)
    requires p + u + ext == p + v + ext
    ensures u == v
  {
    assert u == (p + u + ext)[|p|..|p| + |u|];
    assert |u| == |v|;
    assert v == (p + v + ext)[|p|..|p| + |v|];
  }

  /** The last position of `c` in `s`, if any. */
  function LastPos(s: String, c: char): (r: Option<nat>)
    ensures r.None? <==> c !in s
    ensures r.Some? ==> r.value < |s| && s[r.value] == c && c !in s[r.value + 1..]
  {
    if s == [] then None
    else if s[|s| - 1] == c then Some(|s| - 1)
    else
      var r := LastPos(s[..|s| - 1], c);
      assert s == s[..|s| - 1] + [s[|s| - 1]];
      if r.Some? then
        assert s[r.value + 1..] == s[..|s| - 1][r.value + 1..] + [s[|s| - 1]];
        r
      else r
  }

  /** Python's `s.rsplit(c, 1)[0]`: everything before the last `c`, or all of `s`. */
  function BeforeLast(s: String, c: char): String {
    match LastPos(s, c)
    case None => s
    case Some(k) => s[..k]
  }

  const ConvertedSuffix: String := "_16k.wav"
  const DefaultChunkDir: String := "./chunks"

  /** What `main` does once the input file is known to exist. */
  datatype Action =
    | ShowInfo(input: String)
    | ChunkAudio(input: String, dir: String, chunkMs: int)
    | Convert(input: String, output: String)

  /** `args.output or default`: an absent or empty argument takes the default. */
  function OrDefault(arg: Option<String>, default: String): String {
    if arg.Some? && arg.value != [] then arg.value else default
  }

  /** The option handling of `main`; `None` is the exit with status 1 for a missing input. */
  function MainAction(input: String, output: Option<String>, chunk: bool, durationSeconds: int, info: bool, inputExists: bool): Option<Action> {
    if !inputExists then None
    else if info then Some(ShowInfo(input))
    else if chunk then Some(ChunkAudio(input, OrDefault(output, DefaultChunkDir), durationSeconds * MsPerSecond))
    else Some(Convert(input, OrDefault(output, BeforeLast(input, '.') + ConvertedSuffix)))
  }

  /**
   * The default converted name drops the text from the last `.` on, or
   * nothing when there is no `.`, and appends the suffix.
   */
  lemma DefaultNameAtLastDot(input: String, suffix: String)
    ensures '.' !in input ==> BeforeLast(input, '.') + suffix == input + suffix
    ensures '.' in input ==> (var head := BeforeLast(input, '.');
                              && |head| < |input| && input[..|head|] == head
                              && input[|head|] == '.' && '.' !in input[|head| + 1..])
  {
  }

  /** Without an output argument, conversion writes next to the input with the suffix. */
  lemma ConvertDefaults(input: String, inputExists: bool)
    requires inputExists
    ensures (var a := MainAction(input, None, false, DefaultDurationSeconds, false, inputExists);
             && a.Some? && a.value.Convert?
             && a.value.output == BeforeLast(input, '.') + ConvertedSuffix)
  {
  }

  /**
   * The command line's default of 300 seconds is the same chunk length as the
   * default of `chunk_long_audio`, and chunks go to "./chunks".
   */
  lemma ChunkDefaults(input: String)
    ensures MainAction(input, None, true, DefaultDurationSeconds, false, true)
      == Some(ChunkAudio(input, DefaultChunkDir, DefaultChunkMs))
  {
  }

  /** A missing input stops `main` before any option is looked at. */
  lemma MissingInputStops(input: String, output: Option<String>, chunk: bool, durationSeconds: int, info: bool)
    ensures MainAction(input, output, chunk, durationSeconds, info, false).None?
    ensures MainAction(input, output, chunk, durationSeconds, info, true).Some?
  {
  }
}
