/**
 * The call-analytics scripts: the duration and timestamp formatting of the
 * call log listing, and the record selection and text layout of the
 * transcript export. The platform's HTTP calls are parameters: the fetched
 * call list and a function from call id to call details.
 */
module Analytics {
  import opened Wrappers
  import opened Text

  const NotAvailable: String := "N/A"

  /**
   * `format_duration`: `None` and `0` are falsy and print "N/A"; any other
   * whole number of seconds prints as minutes and seconds. Dafny's division by
   * a positive number floors like Python's `//`.
   */
  function FormatDuration(seconds: Option<int>): String {
    if seconds.None? || seconds.value == 0 then NotAvailable
    else IntToString(seconds.value / 60) + "m " + NatToString(seconds.value % 60) + "s"
  }

  /** Zero seconds is reported as unknown, exactly like a missing duration. */
  lemma ZeroDurationUnknown()
    ensures FormatDuration(Some(0)) == FormatDuration(None) == NotAvailable
  {
  }

  /** The minutes and seconds printed always recombine to the input, with the seconds below 60. */
  lemma DurationParts(n: int)
    requires n != 0
    ensures (var m, s := n / 60, n % 60;
             && 0 <= s < 60 && 60 * m + s == n
             && FormatDuration(Some(n)) == IntToString(m) + "m " + NatToString(s) + "s")
  {
  }

  /** The value of a string of decimal digits. */
  function DigitsValue(s: String): nat {
    if s == [] then 0
    else 10 * DigitsValue(s[..|s| - 1]) + (if '0' <= s[|s| - 1] <= '9' then (s[|s| - 1] as int) - ('0' as int) else 0)
  }

  lemma DigitCharValue(d: nat)
    requires d < 10
    ensures (DigitChar(d) as int) - ('0' as int) == d
  {
    var digits := "0123456789";
    assert digits[0] == '0' && digits[1] == '1' && digits[2] == '2' && digits[3] == '3' && digits[4] == '4';
    assert digits[5] == '5' && digits[6] == '6' && digits[7] == '7' && digits[8] == '8' && digits[9] == '9';
  }

  /** Reading a printed number back gives the number. */
  lemma {:induction false} DigitsRoundTrip(n: nat)
    ensures DigitsValue(NatToString(n)) == n
  {
    var s := NatToString(n);
    if n < 10 {
      DigitCharValue(n);
      assert s[..|s| - 1] == [];
    } else {
      DigitsRoundTrip(n / 10);
      DigitCharValue(n % 10);
      assert s[..|s| - 1] == NatToString(n / 10);
    }
  }

  /** Reads "{m}m {s}s" back as a number of seconds. */
  function ReadDuration(text: String): Option<int> {
    if 'm' !in text then None
    else
      var k := FirstIndex(text, 'm');
      if |text| < k + 3 then None
      else Some(Seconds(text[..k], text[k + 2..|text| - 1]))
  }

  /** The seconds denoted by a minutes field and a seconds field. */
  function Seconds(minutes: String, seconds: String): int {
    60 * DigitsValue(minutes) + DigitsValue(seconds)
  }

  /** For a positive duration the printed text reads back as the same number of seconds. */
  lemma DurationRoundTrip(n: int)
    requires n > 0
    ensures ReadDuration(FormatDuration(Some(n))) == Some(n)
  {
    var m, s := n / 60, n % 60;
    var dm, ds := NatToString(m), NatToString(s);
    var text := FormatDuration(Some(n));
    assert text == dm + "m " + ds + "s";
    MinutesField(dm, ds, " " + ds + "s", text);
    DigitsRoundTrip(m);
    DigitsRoundTrip(s);
    assert Seconds(dm, ds) == n;
    assert ReadDuration(text) == Some(n);
  }

  lemma MinutesField(dm: String, ds: String, rest: String, text: String)
    requires forall i :: 0 <= i < |dm| ==> '0' <= dm[i] <= '9'
    requires rest == " " + ds + "s" && text == dm + "m " + ds + "s"
    ensures ReadDuration(text) == Some(Seconds(dm, ds))
  {
    assert text == dm + ['m'] + rest;
    FirstIndexAfter(dm, 'm', rest);
    assert text[..|dm|] == dm;
    assert text[|dm| + 2..|text| - 1] == ds;
  }

  /**
   * `format_timestamp`. `reformatted` is the `strftime` text when the ISO
   * parse succeeds and `None` when it raises.
   */
  function FormatTimestamp(timestamp: Option<String>, reformatted: Option<String>): (r: String)
    ensures timestamp.None? || timestamp.value == [] ==> r == NotAvailable
    ensures timestamp.Some? && timestamp.value != [] && reformatted.None? ==>
      |r| == (if |timestamp.value| < 16 then |timestamp.value| else 16) && StartsWith(timestamp.value, r)
    ensures timestamp.Some? && timestamp.value != [] && reformatted.Some? ==> r == reformatted.value
  {
    if timestamp.None? || timestamp.value == [] then NotAvailable
    else if reformatted.Some? then reformatted.value
    else if |timestamp.value| < 16 then timestamp.value
    else timestamp.value[..16]
  }

  /** `pagination.get("total", len(calls))`: the reported total, or the number of calls returned. */
  function TotalOf(reported: Option<int>, calls: nat): (total: int)
    ensures reported.None? ==> total == calls
    ensures reported.Some? ==> total == reported.value
  {
    reported.GetOr(calls)
  }

  /** One entry of the fetched call list; only its id is read. */
  datatype CallLog = CallLog(callId: Option<String>)

  /** A transcript line with its optional keys. */
  datatype Turn = Turn(role: Option<String>, content: Option<String>)

  /** The `data` of `get_call`; `None` fields are absent keys. */
  datatype CallData = CallData(
    createdAt: Option<String>,
    duration: Option<int>,
    from: Option<String>,
    to: Option<String>,
    transcript: seq<Turn>,
    summary: Option<String>)

  /** One exported record. */
  datatype Record = Record(
    callId: String,
    date: String,
    duration: int,
    from: String,
    to: String,
    transcript: seq<Turn>,
    summary: String)

  function RecordOf(id: String, data: CallData): Record {
    Record(id, data.createdAt.GetOr(""), data.duration.GetOr(0), data.from.GetOr(""), data.to.GetOr(""),
           data.transcript, data.summary.GetOr(""))
  }

  predicate HasId(c: CallLog) {
    c.callId.Some? && c.callId.value != []
  }

  /** The records of the calls that carry an id, fetched in list order. */
  function Selected(calls: seq<CallLog>, fetch: String -> CallData): seq<Record> {
    if calls == [] then [] else Picked(calls[0], fetch) + Selected(calls[1..], fetch)
  }

  /** The record of one call: none without an id. */
  function Picked(c: CallLog, fetch: String -> CallData): seq<Record> {
    if HasId(c) then [RecordOf(c.callId.value, fetch(c.callId.value))] else []
  }

  /** The number of calls that carry an id. */
  function WithId(calls: seq<CallLog>): (n: nat)
    ensures n <= |calls|
  {
    if calls == [] then 0 else (if HasId(calls[0]) then 1 else 0) + WithId(calls[1..])
  }

  /** Selection works call by call: it distributes over concatenation, so the fetch order is kept. */
  lemma {:induction false} SelectedAppend(a: seq<CallLog>, b: seq<CallLog>, fetch: String -> CallData)
    ensures Selected(a + b, fetch) == Selected(a, fetch) + Selected(b, fetch)
    decreases |a|
  {
    if a == [] {
      assert a + b == b;
    } else {
      assert (a + b)[0] == a[0];
      assert (a + b)[1..] == a[1..] + b;
      SelectedAppend(a[1..], b, fetch);
    }
  }

  /** One record per call with an id, never more records than calls, and every record has an id. */
  lemma {:induction false} SelectedCount(calls: seq<CallLog>, fetch: String -> CallData)
    ensures |Selected(calls, fetch)| == WithId(calls) <= |calls|
    ensures forall i :: 0 <= i < |Selected(calls, fetch)| ==> Selected(calls, fetch)[i].callId != []
    decreases |calls|
  {
    if calls != [] {
      SelectedCount(calls[1..], fetch);
    }
  }

  /** The transcript loop of the export: calls without an id are skipped. */
  method SelectRecords(calls: seq<CallLog>, fetch: String -> CallData) returns (records: seq<Record>)
    ensures records == Selected(calls, fetch)
  {
    records := [];
    var i := 0;
    while i < |calls|
      invariant 0 <= i <= |calls|
      invariant records == Selected(calls[..i], fetch)
    {
      var c := calls[i];
      SelectedSnoc(calls, i, fetch);
      if !HasId(c) {
        i := i + 1;
        continue;
      }
      records := records + [RecordOf(c.callId.value, fetch(c.callId.value))];
      i := i + 1;
    }
    assert calls[..i] == calls;
  }

  lemma SelectedSnoc(calls: seq<CallLog>, i: nat, fetch: String -> CallData)
    requires i < |calls|
    ensures Selected(calls[..i + 1], fetch) == Selected(calls[..i], fetch) + Picked(calls[i], fetch)
  {
    assert calls[..i + 1] == calls[..i] + [calls[i]];
    SelectedAppend(calls[..i], [calls[i]], fetch);
    assert [calls[i]][1..] == [];
  }

  /** What the export writes; a text file is its list of lines. */
  datatype Export =
    | NoCalls
    | JsonFile(path: String, records: seq<Record>)
    | TextFile(path: String, lines: seq<String>)

  predicate EndsWith(s: String, suffix: String) {
    |suffix| <= |s| && s[|s| - |suffix|..] == suffix
  }

  /** JSON is written when asked for, or when the path says so. */
  predicate WantsJson(format: String, path: String) {
    format == "json" || EndsWith(path, ".json")
  }

  const RuleWidth: nat := 60

  /** A transcript line: "Agent" only for the role "agent", a missing content printed empty. */
  function TurnLine(t: Turn): String {
    (if t.role == Some("agent") then "Agent" else "User") + ": " + t.content.GetOr("")
  }

  function TurnLines(turns: seq<Turn>): (lines: seq<String>)
    ensures |lines| == |turns|
    ensures forall i :: 0 <= i < |turns| ==> lines[i] == TurnLine(turns[i])
  {
    seq(|turns|, i requires 0 <= i < |turns| => TurnLine(turns[i]))
  }

  /** The lines before the transcript: a rule, the id, the date, the duration, the numbers and a rule. */
  function HeadLines(t: Record): (lines: seq<String>)
    ensures |lines| == 6
  {
    [ Repeat('=', RuleWidth),
      "Call ID: " + t.callId,
      "Date: " + t.date,
      "Duration: " + IntToString(t.duration) + "s",
      "From: " + t.from + " -> To: " + t.to,
      Repeat('-', RuleWidth) ]
  }

  /** The summary section: nothing for an empty summary. */
  function SummaryLines(summary: String): seq<String> {
    if summary == [] then [] else [Repeat('-', RuleWidth), "Summary: " + summary]
  }

  /** The lines of one record, the last one blank. */
  function RecordLines(t: Record): seq<String> {
    HeadLines(t) + TurnLines(t.transcript) + SummaryLines(t.summary) + [""]
  }

  /** The lines of every element, one element after another. */
  function FlatMap<R>(xs: seq<R>, f: R -> seq<String>): seq<String> {
    if xs == [] then [] else FlatMap(xs[..|xs| - 1], f) + f(xs[|xs| - 1])
  }

  /** The lines of the text export: the records one after another. */
  function ExportLines(records: seq<Record>): seq<String> {
    FlatMap(records, RecordLines)
  }

  /** The characters of the file: every line followed by a newline. */
  function FileText(lines: seq<String>): String {
    Join("\n", lines + [""])
  }

  /** The export as a whole: nothing for an empty call list, else one file in the chosen format. */
  function ExportOf(calls: seq<CallLog>, fetch: String -> CallData, format: String, path: String): (r: Export)
    ensures r.NoCalls? <==> calls == []
    ensures r.JsonFile? <==> calls != [] && (format == "json" || EndsWith(path, ".json"))
    ensures r.JsonFile? ==> r.path == path && r.records == Selected(calls, fetch)
    ensures r.TextFile? ==> r.path == path && r.lines == ExportLines(Selected(calls, fetch))
  {
    if calls == [] then NoCalls
    else if WantsJson(format, path) then JsonFile(path, Selected(calls, fetch))
    else TextFile(path, ExportLines(Selected(calls, fetch)))
  }

  /** A fetched list whose calls all lack an id still writes a file, with no records. */
  lemma ExportWithoutIds(calls: seq<CallLog>, fetch: String -> CallData, format: String, path: String)
    requires calls != [] && WithId(calls) == 0
    ensures ExportOf(calls, fetch, format, path) == (if WantsJson(format, path) then JsonFile(path, []) else TextFile(path, []))
  {
    SelectedCount(calls, fetch);
  }

  /** Writes the text layout the way the source does, record by record and line by line. */
  method WriteText(records: seq<Record>) returns (lines: seq<String>)
    ensures lines == ExportLines(records)
  {
    lines := [];
    for i := 0 to |records|
      invariant lines == FlatMap(records[..i], RecordLines)
    {
      FlatMapSnoc(records, i, RecordLines);
      lines := WriteRecord(lines, records[i]);
    }
    assert records[..|records|] == records;
  }

  /** The body of the loop over the records. */
  method WriteRecord(done: seq<String>, t: Record) returns (lines: seq<String>)
    ensures lines == done + RecordLines(t)
  {
    lines := WriteHead(done, t);
    var head := lines;
    for j := 0 to |t.transcript|
      invariant lines == head + TurnLines(t.transcript[..j])
    {
      TurnLinesSnoc(t.transcript, j);
      lines := lines + [TurnLine(t.transcript[j])];
    }
    assert t.transcript[..|t.transcript|] == t.transcript;
    var body := lines;
    if t.summary != [] {
      var section := SummaryLines(t.summary);
      lines := lines + [section[0]];
      lines := lines + [section[1]];
      assert section == [section[0], section[1]];
    }
    assert lines == body + SummaryLines(t.summary);
    lines := lines + [""];
    Regroup(done, HeadLines(t), TurnLines(t.transcript), SummaryLines(t.summary), lines);
  }

  method WriteHead(done: seq<String>, t: Record) returns (lines: seq<String>)
    ensures lines == done + HeadLines(t)
  {
    var head := HeadLines(t);
    lines := done + [head[0]];
    lines := lines + [head[1]];
    lines := lines + [head[2]];
    lines := lines + [head[3]];
    lines := lines + [head[4]];
    lines := lines + [head[5]];
    SixLines(done, head, lines);
  }

  lemma SixLines(done: seq<String>, head: seq<String>, lines: seq<String>)
    requires |head| == 6
    requires lines == done + [head[0]] + [head[1]] + [head[2]] + [head[3]] + [head[4]] + [head[5]]
    ensures lines == done + head
  {
    assert head == [head[0], head[1], head[2], head[3], head[4], head[5]];
  }

  lemma FlatMapSnoc<R>(xs: seq<R>, i: nat, f: R -> seq<String>)
    requires i < |xs|
    ensures FlatMap(xs[..i + 1], f) == FlatMap(xs[..i], f) + f(xs[i])
  {
    assert xs[..i + 1][..i] == xs[..i];
  }

  lemma TurnLinesSnoc(turns: seq<Turn>, j: nat)
    requires j < |turns|
    ensures TurnLines(turns[..j + 1]) == TurnLines(turns[..j]) + [TurnLine(turns[j])]
  {
  }

  lemma Regroup(done: seq<String>, head: seq<String>, turns: seq<String>, summary: seq<String>, lines: seq<String>)
    requires lines == done + head + turns + summary + [""]
    ensures lines == done + (head + turns + summary + [""])
  {
  }

  /** A transcript line starts with "Agent: " exactly when the role is "agent", and with "User: " otherwise. */
  lemma TurnLabel(t: Turn)
    ensures StartsWith(TurnLine(t), "Agent: ") <==> t.role == Some("agent")
    ensures t.role != Some("agent") ==> StartsWith(TurnLine(t), "User: ")
  {
    var line := TurnLine(t);
    if t.role != Some("agent") {
      assert line[0] == 'U';
    }
  }

  /**
   * Each record opens with a rule of 60 "=", shows its transcript lines in
   * order after the six head lines, and closes with a blank line; the summary
   * lines are there exactly when the summary is non-empty.
   */
  lemma RecordLayout(t: Record)
    ensures RecordLines(t)[0] == Repeat('=', RuleWidth)
    ensures RecordLines(t)[|RecordLines(t)| - 1] == ""
    ensures forall i :: 0 <= i < |t.transcript| ==> RecordLines(t)[6 + i] == TurnLine(t.transcript[i])
    ensures t.summary == [] ==> |RecordLines(t)| == 7 + |t.transcript|
    ensures t.summary != [] ==>
      |RecordLines(t)| == 9 + |t.transcript| && RecordLines(t)[7 + |t.transcript|] == "Summary: " + t.summary
  {
    var h, ts, sl := HeadLines(t), TurnLines(t.transcript), SummaryLines(t.summary);
    assert RecordLines(t) == h + ts + sl + [""];
    assert forall i :: 0 <= i < |ts| ==> (h + ts + sl + [""])[6 + i] == ts[i];
  }

  /** The text file is the records one after another, each in its own layout. */
  lemma ExportLinesAppend(a: seq<Record>, b: seq<Record>)
    ensures ExportLines(a + b) == ExportLines(a) + ExportLines(b)
  {
    FlatMapAppend(a, b, RecordLines);
  }

  lemma {:induction false} FlatMapAppend<R>(a: seq<R>, b: seq<R>, f: R -> seq<String>)
    ensures FlatMap(a + b, f) == FlatMap(a, f) + FlatMap(b, f)
    decreases |b|
  {
    if b == [] {
      assert a + b == a;
    } else {
      var b' := b[..|b| - 1];
      assert (a + b)[..|a + b| - 1] == a + b';
      assert (a + b)[|a + b| - 1] == b[|b| - 1];
      FlatMapAppend(a, b', f);
    }
  }

  /** Lines without a newline of their own read back from the file unchanged. */
  lemma FileReadsBack(lines: seq<String>)
    requires forall i :: 0 <= i < |lines| ==> '\n' !in lines[i]
    ensures SplitOn(FileText(lines), '\n') == lines + [""]
  {
    var xs := lines + [""];
    assert forall i :: 0 <= i < |xs| ==> '\n' !in xs[i];
    SplitOnJoin(xs, '\n');
  }
}
