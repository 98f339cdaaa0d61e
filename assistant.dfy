/**
 * The tool-calling assistant agent: an in-memory appointment book that the
 * LLM can append to and list, and a canned weather lookup.
 */
module Assistant {
  import opened Text

  datatype Appointment = Appointment(date: String, time: String, service: String)

  /** What `book_appointment` answers. */
  function BookingReply(a: Appointment): String {
    "Booked " + a.service + " for " + a.date + " at " + a.time + ". Confirmation sent!"
  }

  const NoAppointments: String := "You have no upcoming appointments."
  const ListingHeader: String := "Your appointments:"

  /** Line `n` of the listing: "n. service on date at time". */
  function AppointmentLine(n: nat, a: Appointment): String {
    NatToString(n) + ". " + a.service + " on " + a.date + " at " + a.time
  }

  /** The listing's lines, numbered from 1 in booking order. */
  function AppointmentLines(apts: seq<Appointment>): (r: seq<String>)
    ensures |r| == |apts| && forall i :: 0 <= i < |apts| ==> r[i] == AppointmentLine(i + 1, apts[i])
  {
    if apts == [] then [] else AppointmentLines(apts[..|apts| - 1]) + [AppointmentLine(|apts|, apts[|apts| - 1])]
  }

  /** The body of the listing: every line followed by a newline. */
  function LinesText(apts: seq<Appointment>): String {
    if apts == [] then []
    else LinesText(apts[..|apts| - 1]) + AppointmentLine(|apts|, apts[|apts| - 1]) + "\n"
  }

  /** `list_appointments`' answer for a given book. */
  function Listing(apts: seq<Appointment>): String {
    if apts == [] then NoAppointments else ListingHeader + "\n" + LinesText(apts)
  }

  /** The listing is the header and the numbered lines, each ending in a newline. */
  lemma {:induction false} ListingIsJoin(apts: seq<Appointment>)
    ensures ListingHeader + "\n" + LinesText(apts) == Join("\n", [ListingHeader] + AppointmentLines(apts)) + "\n"
    decreases |apts|
  {
    if apts != [] {
      var p := apts[..|apts| - 1];
      var line := AppointmentLine(|apts|, apts[|apts| - 1]);
      ListingIsJoin(p);
      var xs := [ListingHeader] + AppointmentLines(p);
      LinesSnoc(p, AppointmentLines(apts), line);
      JoinAppend("\n", xs, [line]);
      assert Join("\n", [line]) == line;
      ListingStep(ListingHeader + "\n", LinesText(p), line, Join("\n", xs), "\n");
    }
  }

  /** The string algebra of one step of `ListingIsJoin`. */
  lemma ListingStep(a: String, l: String, line: String, j: String, nl: String)
    requires a + l == j + nl
    ensures a + (l + line + nl) == j + nl + line + nl
  {
  }

  lemma LinesSnoc(p: seq<Appointment>, lines: seq<String>, line: String)
    requires lines == AppointmentLines(p) + [line]
    ensures [ListingHeader] + lines == ([ListingHeader] + AppointmentLines(p)) + [line]
  {
  }

  predicate OneLine(a: Appointment) {
    '\n' !in a.date && '\n' !in a.time && '\n' !in a.service
  }

  lemma LineWithoutNewline(n: nat, a: Appointment)
    requires OneLine(a)
    ensures '\n' !in AppointmentLine(n, a)
  {
    var d := NatToString(n);
    assert '\n' !in d by {
      forall k | 0 <= k < |d| ensures d[k] != '\n' {
        assert '0' <= d[k] <= '9';
      }
    }
  }

  /**
   * For appointments whose fields hold no newline, splitting a non-empty
   * listing at newlines gives the header, one numbered line per appointment
   * in booking order, and the empty piece after the final newline.
   */
  lemma ListingLines(apts: seq<Appointment>)
    requires apts != [] && forall i :: 0 <= i < |apts| ==> OneLine(apts[i])
    ensures SplitOn(Listing(apts), '\n') == [ListingHeader] + AppointmentLines(apts) + [""]
  {
    var lines := AppointmentLines(apts);
    var xs := [ListingHeader] + lines + [""];
    NoNewlineInLines(apts);
    HeaderOneLine();
    JoinedListingSplits(ListingHeader, lines, "");
    assert SplitOn(Join(['\n'], xs), '\n') == xs;
    ListingAsJoin(apts);
    assert Listing(apts) == Join(['\n'], xs);
  }

  lemma JoinedListingSplits(header: String, lines: seq<String>, tail: String)
    requires '\n' !in header && '\n' !in tail
    requires forall i :: 0 <= i < |lines| ==> '\n' !in lines[i]
    ensures SplitOn(Join(['\n'], [header] + lines + [tail]), '\n') == [header] + lines + [tail]
  {
    var ys := [header] + lines + [tail];
    NoNewlineConcat([header], lines);
    NoNewlineConcat([header] + lines, [tail]);
    SplitOnJoin(ys, '\n');
  }

  lemma NoNewlineConcat(xs: seq<String>, ys: seq<String>)
    requires forall i :: 0 <= i < |xs| ==> '\n' !in xs[i]
    requires forall i :: 0 <= i < |ys| ==> '\n' !in ys[i]
    ensures forall i :: 0 <= i < |xs + ys| ==> '\n' !in (xs + ys)[i]
  {
    forall i | 0 <= i < |xs + ys| ensures '\n' !in (xs + ys)[i] {
      if i < |xs| {
        assert (xs + ys)[i] == xs[i];
      } else {
        assert (xs + ys)[i] == ys[i - |xs|];
      }
    }
  }

  lemma ListingAsJoin(apts: seq<Appointment>)
    requires apts != []
    ensures Listing(apts) == Join(['\n'], [ListingHeader] + AppointmentLines(apts) + [""])
  {
    var xs := [ListingHeader] + AppointmentLines(apts);
    JoinAppend("\n", xs, [""]);
    ListingIsJoin(apts);
  }

  lemma NoNewlineInLines(apts: seq<Appointment>)
    requires forall i :: 0 <= i < |apts| ==> OneLine(apts[i])
    ensures forall i :: 0 <= i < |apts| ==> '\n' !in AppointmentLines(apts)[i]
  {
    forall i | 0 <= i < |apts| ensures '\n' !in AppointmentLines(apts)[i] {
      LineWithoutNewline(i + 1, apts[i]);
    }
  }

  lemma HeaderOneLine()
    ensures '\n' !in ListingHeader
  {
  }

  /** Booking one more appointment adds exactly its numbered line at the end of the listing. */
  lemma ListingAfterBooking(apts: seq<Appointment>, a: Appointment)
    ensures apts != [] ==> Listing(apts + [a]) == Listing(apts) + AppointmentLine(|apts| + 1, a) + "\n"
    ensures apts == [] ==> Listing([a]) == ListingHeader + "\n" + AppointmentLine(1, a) + "\n"
  {
    var b := apts + [a];
    assert b[..|b| - 1] == apts && b[|b| - 1] == a;
    var line := AppointmentLine(|apts| + 1, a);
    var head := ListingHeader + "\n";
    assert LinesText(b) == LinesText(apts) + line + "\n";
    assert Listing(b) == head + LinesText(b);
    if apts == [] {
      assert LinesText(apts) == [];
    } else {
      assert Listing(apts) == head + LinesText(apts);
    }
  }

  /** The canned weather table, keyed by lower-case city name. */
  const WeatherData: map<String, String> := map[
    "new york" := "Sunny, 72°F",
    "london" := "Cloudy, 58°F",
    "tokyo" := "Clear, 68°F",
    "paris" := "Rainy, 55°F",
    "san francisco" := "Foggy, 62°F"
  ]

  const DefaultWeather: String := "partly cloudy, 65°F"

  /**
   * `get_weather`: the city is looked up case-insensitively, unknown cities
   * get the default, and the city is echoed as given.
   */
  function GetWeather(city: String): (r: String)
    ensures Lower(city) in WeatherData ==> r == "The weather in " + city + " is " + WeatherData[Lower(city)]
    ensures Lower(city) !in WeatherData ==> r == "The weather in " + city + " is " + DefaultWeather
  {
    var key := Lower(city);
    "The weather in " + city + " is " + (if key in WeatherData then WeatherData[key] else DefaultWeather)
  }

  /** Two spellings of a city differing only in letter case get the same weather. */
  lemma WeatherIgnoresCase(c1: String, c2: String)
    requires Lower(c1) == Lower(c2)
    ensures GetWeather(c1)[|"The weather in " + c1 + " is "|..] == GetWeather(c2)[|"The weather in " + c2 + " is "|..]
  {
    var p1 := "The weather in " + c1 + " is ";
    var p2 := "The weather in " + c2 + " is ";
    assert GetWeather(c1) == p1 + GetWeather(c1)[|p1|..];
    assert GetWeather(c2) == p2 + GetWeather(c2)[|p2|..];
  }

  /** `AssistantAgent`'s appointment book. */
  class AssistantAgent {
    var appointments: seq<Appointment>

    constructor ()
      ensures appointments == []
    {
      appointments := [];
    }

    /** `book_appointment`: append one entry; earlier ones stay as they were. */
    method BookAppointment(date: String, time: String, service: String) returns (reply: String)
      modifies this
      ensures appointments == old(appointments) + [Appointment(date, time, service)]
      ensures reply == BookingReply(Appointment(date, time, service))
    {
      var a := Appointment(date, time, service);
      appointments := appointments + [a];
      reply := BookingReply(a);
    }

    /** `list_appointments`: the loop building the numbered listing. */
    method ListAppointments() returns (result: String)
      ensures result == Listing(appointments)
    {
      if appointments == [] {
        return NoAppointments;
      }
      result := ListingHeader + "\n";
      var i := 0;
      while i < |appointments|
        invariant 0 <= i <= |appointments|
        invariant result == ListingHeader + "\n" + LinesText(appointments[..i])
      {
        assert appointments[..i + 1][..i] == appointments[..i];
        result := result + AppointmentLine(i + 1, appointments[i]) + "\n";
        i := i + 1;
      }
      assert appointments[..i] == appointments;
    }
  }
}
