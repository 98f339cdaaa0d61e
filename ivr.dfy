/**
 * The inbound IVR agent: a fixed table of four departments, a tool that
 * lists them, and a tool that transfers the caller to one of them by name,
 * counting the transfers and remembering the last department chosen.
 */
module Ivr {
  import opened Wrappers
  import opened Text

  datatype Department = Department(name: String, number: String, description: String, hours: String)

  /** `DEPARTMENTS`, in declaration order. */
  const Departments: seq<Department> := [
    Department("sales", "+1111111111", "New orders, pricing, product information", "9 AM - 6 PM EST"),
    Department("support", "+2222222222", "Technical issues, troubleshooting, account problems", "24/7"),
    Department("billing", "+3333333333", "Invoices, payments, refunds", "9 AM - 5 PM EST"),
    Department("returns", "+4444444444", "Return requests, exchanges, order cancellations", "9 AM - 5 PM EST")
  ]

  function Names(ds: seq<Department>): (r: seq<String>)
    ensures |r| == |ds| && forall i :: 0 <= i < |ds| ==> r[i] == ds[i].name
  {
    if ds == [] then [] else [ds[0].name] + Names(ds[1..])
  }

  /**
   * `DEPARTMENTS[name]`: the department with that key, if any. The keys are
   * distinct, so the first match is the only one.
   */
  function FindDepartment(name: String): (r: Option<Department>)
    ensures r.Some? ==> r.value in Departments && r.value.name == name
    ensures r.None? ==> forall i :: 0 <= i < |Departments| ==> Departments[i].name != name
  {
    if name == "sales" then Some(Departments[0])
    else if name == "support" then Some(Departments[1])
    else if name == "billing" then Some(Departments[2])
    else if name == "returns" then Some(Departments[3])
    else None
  }

  /**
   * The department names are single lower-case words, for which Python's
   * `str.title()` upper-cases the first letter only.
   */
  function Title(name: String): String {
    Capitalize(name)
  }

  /** One line of `get_departments`: "Name: description (Hours: hours)". */
  function DepartmentLine(d: Department): String {
    Title(d.name) + ": " + d.description + " (Hours: " + d.hours + ")"
  }

  function DepartmentLines(ds: seq<Department>): (r: seq<String>)
    ensures |r| == |ds| && forall i :: 0 <= i < |ds| ==> r[i] == DepartmentLine(ds[i])
  {
    if ds == [] then [] else [DepartmentLine(ds[0])] + DepartmentLines(ds[1..])
  }

  /** `get_departments`: the loop collecting one line per department, joined by newlines. */
  method GetDepartments() returns (listing: String)
    ensures listing == Join("\n", DepartmentLines(Departments))
  {
    var lines: seq<String> := [];
    var i := 0;
    while i < |Departments|
      invariant 0 <= i <= |Departments|
      invariant lines == DepartmentLines(Departments[..i])
    {
      assert Departments[..i + 1] == Departments[..i] + [Departments[i]];
      lines := lines + [DepartmentLine(Departments[i])];
      i := i + 1;
    }
    assert Departments[..i] == Departments;
    listing := Join("\n", lines);
  }

  predicate OneLine(d: Department) {
    '\n' !in d.name && '\n' !in d.description && '\n' !in d.hours
  }

  lemma LineWithoutNewline(d: Department)
    requires OneLine(d)
    ensures '\n' !in DepartmentLine(d)
  {
    var t := Title(d.name);
    assert forall k :: 0 <= k < |t| ==> t[k] != '\n' by {
      forall k | 0 <= k < |t| ensures t[k] != '\n' {
        if k > 0 {
          assert t[k] == d.name[k];
        } else {
          assert d.name[0] != '\n';
        }
      }
    }
  }

  /**
   * Splitting the listing at newlines gives back one line per department,
   * in table order, each opening with the department's title-cased name,
   * for any table whose entries hold no newline (the four configured ones
   * hold none).
   */
  lemma DepartmentListing(ds: seq<Department>)
    requires |ds| > 0 && forall i :: 0 <= i < |ds| ==> OneLine(ds[i])
    ensures var lines := SplitOn(Join("\n", DepartmentLines(ds)), '\n');
      && lines == DepartmentLines(ds)
      && |lines| == |ds|
      && forall i :: 0 <= i < |ds| ==> StartsWith(lines[i], Title(ds[i].name) + ": ")
  {
    var lines := DepartmentLines(ds);
    forall i | 0 <= i < |lines| ensures '\n' !in lines[i] {
      LineWithoutNewline(ds[i]);
    }
    SplitOnJoin(lines, '\n');
    forall i | 0 <= i < |ds| ensures StartsWith(lines[i], Title(ds[i].name) + ": ") {
      LineStartsWithName(ds[i]);
    }
  }

  lemma LineStartsWithName(d: Department)
    ensures StartsWith(DepartmentLine(d), Title(d.name) + ": ")
  {
    var p := Title(d.name) + ": ";
    assert DepartmentLine(d) == p + (d.description + " (Hours: " + d.hours + ")");
  }

  datatype TransferOption = ColdTransfer | WarmTransfer(prompt: String)

  /** `SDKAgentTransferConversationEvent`. */
  datatype TransferEvent = TransferEvent(number: String, option: TransferOption, holdMusic: String)

  const HoldMusic: String := "relaxing_sound"

  /** What the tool reports for a name that is not a department. */
  function UnknownDepartmentReply(department: String): String {
    "Unknown department: " + department + ". Available: " + Join(", ", Names(Departments))
  }

  /** The agent's call state: `detected_intent`, `transfer_count`, and the events sent. */
  datatype IvrState = IvrState(detectedIntent: Option<String>, transferCount: nat, sent: seq<TransferEvent>)

  /**
   * `transfer_to_department`: the name is matched after lower-casing; an
   * unknown name changes nothing and names the departments; a known one
   * records the department, counts the transfer and sends one transfer event
   * to the department's number, warm (with a briefing prompt) or cold.
   */
  function TransferStep(st: IvrState, department: String, reason: String, warm: bool): (r: (IvrState, String))
    ensures FindDepartment(Lower(department)).None? ==> r == (st, UnknownDepartmentReply(department))
    ensures FindDepartment(Lower(department)).Some? ==>
      var dept := Lower(department);
      && r.0.detectedIntent == Some(dept)
      && r.0.transferCount == st.transferCount + 1
      && |r.0.sent| == |st.sent| + 1 && r.0.sent[..|st.sent|] == st.sent
      && r.0.sent[|st.sent|].number == FindDepartment(dept).value.number
      && r.0.sent[|st.sent|].holdMusic == HoldMusic
      && (warm <==> r.0.sent[|st.sent|].option.WarmTransfer?)
      && (warm ==> r.0.sent[|st.sent|].option.prompt == WarmPrompt(dept, reason))
      && r.1 == TransferReply(dept)
  {
    var dept := Lower(department);
    match FindDepartment(dept)
    case None => (st, UnknownDepartmentReply(department))
    case Some(info) =>
      var option := if warm then WarmTransfer(WarmPrompt(dept, reason)) else ColdTransfer;
      var event := TransferEvent(info.number, option, HoldMusic);
      (IvrState(Some(dept), st.transferCount + 1, st.sent + [event]), TransferReply(dept))
  }

  /** The step for a name that matches a department. */
  lemma TransferFound(st: IvrState, department: String, reason: String, warm: bool, info: Department)
    requires FindDepartment(Lower(department)) == Some(info)
    ensures var dept := Lower(department);
      TransferStep(st, department, reason, warm) ==
        (IvrState(Some(dept), st.transferCount + 1,
                  st.sent + [TransferEvent(info.number, if warm then WarmTransfer(WarmPrompt(dept, reason)) else ColdTransfer, HoldMusic)]),
         TransferReply(dept))
  {
  }

  /** The briefing a warm transfer gives the department's agent. */
  function WarmPrompt(dept: String, reason: String): String {
    "Incoming call for " + dept + ". Reason: " + reason
  }

  /** What the tool answers once the transfer event is sent. */
  function TransferReply(dept: String): String {
    "Transferring to " + Title(dept) + " department."
  }

  /**
   * The counter counts the transfer events sent, and the remembered
   * department is the one the last transfer went to.
   */
  predicate Consistent(st: IvrState) {
    && st.transferCount == |st.sent|
    && (st.detectedIntent.None? <==> st.sent == [])
    && (st.detectedIntent.Some? ==>
         && FindDepartment(st.detectedIntent.value).Some?
         && st.sent[|st.sent| - 1].number == FindDepartment(st.detectedIntent.value).value.number)
  }

  lemma InitialConsistent()
    ensures Consistent(IvrState(None, 0, []))
  {
  }

  lemma TransferKeepsConsistent(st: IvrState, department: String, reason: String, warm: bool)
    requires Consistent(st)
    ensures Consistent(TransferStep(st, department, reason, warm).0)
  {
  }

  /** The department name is matched whatever its letter case. */
  lemma TransferIgnoresCase(st: IvrState, d1: String, d2: String, reason: String, warm: bool)
    requires Lower(d1) == Lower(d2)
    ensures TransferStep(st, d1, reason, warm).0 == TransferStep(st, d2, reason, warm).0
  {
  }

  /** `IVRAgent`'s call state. */
  class IvrAgent {
    var detectedIntent: Option<String>
    var transferCount: nat
    var sent: seq<TransferEvent>

    constructor ()
      ensures detectedIntent == None && transferCount == 0 && sent == []
    {
      detectedIntent := None;
      transferCount := 0;
      sent := [];
    }

    function State(): IvrState
      reads this
    {
      IvrState(detectedIntent, transferCount, sent)
    }

    /** `transfer_to_department`. */
    method TransferToDepartment(department: String, reason: String, warm: bool) returns (reply: String)
      modifies this
      ensures (State(), reply) == TransferStep(old(State()), department, reason, warm)
    {
      var dept := Lower(department);
      var found := FindDepartment(dept);
      if found.None? {
        assert TransferStep(old(State()), department, reason, warm).0 == State();
        return UnknownDepartmentReply(department);
      }
      var info := found.value;
      ghost var before := old(State());
      TransferFound(before, department, reason, warm, info);
      SendTransfer(dept, info, reason, warm);
      assert State() == TransferStep(before, department, reason, warm).0;
      reply := TransferReply(dept);
    }

    /** The found-department branch of `transfer_to_department`: record, count, send. */
    method SendTransfer(dept: String, info: Department, reason: String, warm: bool)
      modifies this
      ensures State() == IvrState(Some(dept), old(transferCount) + 1,
        old(sent) + [TransferEvent(info.number, if warm then WarmTransfer(WarmPrompt(dept, reason)) else ColdTransfer, HoldMusic)])
    {
      var option;
      if warm {
        option := WarmTransfer(WarmPrompt(dept, reason));
      } else {
        option := ColdTransfer;
      }
      detectedIntent := Some(dept);
      transferCount := transferCount + 1;
      sent := sent + [TransferEvent(info.number, option, HoldMusic)];
    }
  }
}
