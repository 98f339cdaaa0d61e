/**
 * The interrupt-control agent: a tool lets the LLM mute the caller for the
 * next response, and the agent unmutes the caller again when a response
 * finishes, so a mute lasts at most one response.
 */
module Interrupt {
  import opened Text

  /** The control events the agent sends. */
  datatype ControlEvent = MuteUser | UnmuteUser | EndCall

  /** The tools the LLM may call during a response. */
  datatype ToolCall = SetInterruptible(enabled: bool) | CheckSettings | EndCallTool

  /** The agent's state: `user_muted` and the events sent so far. */
  datatype MuteState = MuteState(userMuted: bool, sent: seq<ControlEvent>)

  const Initial := MuteState(false, [])

  /** `set_interruptible`: enabling unmutes, disabling mutes; each sends its event. */
  function SetStep(st: MuteState, enabled: bool): (r: (MuteState, String))
    ensures r.0.userMuted == !enabled
    ensures r.0.sent == st.sent + [if enabled then UnmuteUser else MuteUser]
  {
    if enabled then (MuteState(false, st.sent + [UnmuteUser]), "User unmuted. They can now interrupt.")
    else (MuteState(true, st.sent + [MuteUser]),
          "User muted. Speak your message now - they cannot interrupt. Will auto-unmute when done.")
  }

  /** Python's rendering of a boolean. */
  function BoolText(b: bool): String {
    if b then "True" else "False"
  }

  /** `check_settings`: reports the flag. */
  function SettingsReport(st: MuteState): (r: String)
    ensures StartsWith(r, "User muted: ")
    ensures r[|"User muted: "|..] == BoolText(st.userMuted)
  {
    "User muted: " + BoolText(st.userMuted)
  }

  /** One tool call run during a response; `check_settings` changes nothing. */
  function ToolStep(st: MuteState, call: ToolCall): (r: MuteState)
    ensures call.CheckSettings? ==> r == st
    ensures call.EndCallTool? ==> r == MuteState(st.userMuted, st.sent + [EndCall])
  {
    match call
    case SetInterruptible(enabled) => SetStep(st, enabled).0
    case CheckSettings => st
    case EndCallTool => MuteState(st.userMuted, st.sent + [EndCall])
  }

  function ToolsStep(st: MuteState, calls: seq<ToolCall>): MuteState
  {
    if calls == [] then st else ToolStep(ToolsStep(st, calls[..|calls| - 1]), calls[|calls| - 1])
  }

  lemma ToolsStepSnoc(st: MuteState, calls: seq<ToolCall>, i: nat)
    requires i < |calls|
    ensures ToolsStep(st, calls[..i + 1]) == ToolStep(ToolsStep(st, calls[..i]), calls[i])
  {
    assert calls[..i + 1][..i] == calls[..i];
  }

  /** The end of `generate_response`: unmute if, and only if, the caller is muted. */
  function AutoUnmute(st: MuteState): (r: MuteState)
    ensures !r.userMuted
    ensures st.userMuted ==> r.sent == st.sent + [UnmuteUser]
    ensures !st.userMuted ==> r == st
  {
    if st.userMuted then MuteState(false, st.sent + [UnmuteUser]) else st
  }

  /** A response: its tool calls in order, then the auto-unmute. */
  function ResponseStep(st: MuteState, calls: seq<ToolCall>): MuteState {
    AutoUnmute(ToolsStep(st, calls))
  }

  /** The last mute or unmute event in `sent`, if any. */
  function LastControl(sent: seq<ControlEvent>): (r: ControlEvent)
    ensures r != EndCall
  {
    if sent == [] then UnmuteUser
    else if sent[|sent| - 1] != EndCall then sent[|sent| - 1]
    else LastControl(sent[..|sent| - 1])
  }

  /** The flag always agrees with the last mute or unmute event sent. */
  predicate Agrees(st: MuteState) {
    st.userMuted <==> LastControl(st.sent) == MuteUser
  }

  lemma LastControlAppend(sent: seq<ControlEvent>, e: ControlEvent)
    ensures e != EndCall ==> LastControl(sent + [e]) == e
    ensures e == EndCall ==> LastControl(sent + [e]) == LastControl(sent)
  {
    assert (sent + [e])[..|sent|] == sent;
  }

  lemma InitialAgrees()
    ensures Agrees(Initial)
  {
  }

  lemma ToolStepAgrees(st: MuteState, call: ToolCall)
    requires Agrees(st)
    ensures Agrees(ToolStep(st, call))
  {
    match call
    case SetInterruptible(enabled) =>
      LastControlAppend(st.sent, if enabled then UnmuteUser else MuteUser);
    case CheckSettings =>
    case EndCallTool =>
      LastControlAppend(st.sent, EndCall);
  }

  lemma {:induction false} ToolsStepAgrees(st: MuteState, calls: seq<ToolCall>)
    requires Agrees(st)
    ensures Agrees(ToolsStep(st, calls))
    decreases |calls|
  {
    if calls != [] {
      ToolsStepAgrees(st, calls[..|calls| - 1]);
      ToolStepAgrees(ToolsStep(st, calls[..|calls| - 1]), calls[|calls| - 1]);
    }
  }

  /** A response keeps the flag in agreement with the events and always ends unmuted. */
  lemma ResponseAgrees(st: MuteState, calls: seq<ToolCall>)
    requires Agrees(st)
    ensures Agrees(ResponseStep(st, calls)) && !ResponseStep(st, calls).userMuted
  {
    ToolsStepAgrees(st, calls);
    var mid := ToolsStep(st, calls);
    if mid.userMuted {
      LastControlAppend(mid.sent, UnmuteUser);
    }
  }

  /**
   * Whether the caller is muted when the response's tools have run: the
   * last `set_interruptible` call decides, and without one the flag is kept.
   */
  lemma MutedAfterTools(st: MuteState, calls: seq<ToolCall>)
    ensures forall i :: LastSetAt(calls, i) ==> ToolsStep(st, calls).userMuted == !calls[i].enabled
    ensures NoSet(calls) ==> ToolsStep(st, calls).userMuted == st.userMuted
  {
    forall i | LastSetAt(calls, i)
      ensures ToolsStep(st, calls).userMuted == !calls[i].enabled
    {
      MutedByLastSet(st, calls, i);
    }
    if NoSet(calls) {
      MutedKept(st, calls);
    }
  }

  /** `calls[i]` is the last `set_interruptible` call. */
  predicate LastSetAt(calls: seq<ToolCall>, i: int) {
    0 <= i < |calls| && calls[i].SetInterruptible? && forall k :: i < k < |calls| ==> !calls[k].SetInterruptible?
  }

  /** No call is a `set_interruptible` call. */
  predicate NoSet(calls: seq<ToolCall>) {
    forall k :: 0 <= k < |calls| ==> !calls[k].SetInterruptible?
  }

  /** The `set_interruptible` call at `i`, with none after it, decides the flag. */
  lemma {:induction false} MutedByLastSet(st: MuteState, calls: seq<ToolCall>, i: nat)
    requires LastSetAt(calls, i)
    ensures ToolsStep(st, calls).userMuted == !calls[i].enabled
    decreases |calls|
  {
    var init := calls[..|calls| - 1];
    var last := calls[|calls| - 1];
    assert ToolsStep(st, calls) == ToolStep(ToolsStep(st, init), last);
    if i < |calls| - 1 {
      assert init[i] == calls[i];
      forall k | i < k < |init| ensures !init[k].SetInterruptible? {
        assert init[k] == calls[k];
      }
      assert LastSetAt(init, i);
      MutedByLastSet(st, init, i);
    }
  }

  /** Without a `set_interruptible` call the flag is kept. */
  lemma {:induction false} MutedKept(st: MuteState, calls: seq<ToolCall>)
    requires NoSet(calls)
    ensures ToolsStep(st, calls).userMuted == st.userMuted
    decreases |calls|
  {
    if calls != [] {
      var init := calls[..|calls| - 1];
      forall k | 0 <= k < |init| ensures !init[k].SetInterruptible? {
        assert init[k] == calls[k];
      }
      assert NoSet(init);
      MutedKept(st, init);
    }
  }

  /** The auto-unmute event is sent exactly when the tools left the caller muted. */
  lemma AutoUnmuteSentWhenMuted(st: MuteState, calls: seq<ToolCall>)
    ensures var mid := ToolsStep(st, calls);
      ResponseStep(st, calls).sent == mid.sent + (if mid.userMuted then [UnmuteUser] else [])
  {
  }

  /** `ConfigurableAgent`'s mute flag and the events it sent. */
  class ConfigurableAgent {
    var userMuted: bool
    var sent: seq<ControlEvent>

    constructor ()
      ensures userMuted == false && sent == []
    {
      userMuted := false;
      sent := [];
    }

    function State(): MuteState
      reads this
    {
      MuteState(userMuted, sent)
    }

    /** `set_interruptible`. */
    method SetInterruptible(enabled: bool) returns (reply: String)
      modifies this
      ensures (State(), reply) == SetStep(old(State()), enabled)
    {
      if enabled {
        sent := sent + [UnmuteUser];
        userMuted := false;
        reply := "User unmuted. They can now interrupt.";
      } else {
        sent := sent + [MuteUser];
        userMuted := true;
        reply := "User muted. Speak your message now - they cannot interrupt. Will auto-unmute when done.";
      }
    }

    /** `check_settings`. */
    function CheckSettingsReport(): String
      reads this
    {
      SettingsReport(State())
    }

    /** `end_call`. */
    method EndCallNow()
      modifies this
      ensures State() == ToolStep(old(State()), EndCallTool)
    {
      sent := sent + [EndCall];
    }

    /** One tool call made by the LLM. */
    method RunTool(call: ToolCall)
      modifies this
      ensures State() == ToolStep(old(State()), call)
    {
      match call {
        case SetInterruptible(enabled) =>
          var _ := SetInterruptible(enabled);
        case CheckSettings =>
        case EndCallTool =>
          EndCallNow();
      }
    }

    /**
     * `generate_response`, as far as the mute flag goes: the tools the LLM
     * called run in order, then the caller is unmuted if muted.
     */
    method GenerateResponse(calls: seq<ToolCall>)
      modifies this
      ensures State() == ResponseStep(old(State()), calls)
      ensures !userMuted
    {
      ghost var start := State();
      var i := 0;
      while i < |calls|
        invariant 0 <= i <= |calls|
        invariant State() == ToolsStep(start, calls[..i])
      {
        ToolsStepSnoc(start, calls, i);
        RunTool(calls[i]);
        i := i + 1;
      }
      assert calls[..i] == calls;
      assert State() == ToolsStep(start, calls);
      if userMuted {
        sent := sent + [UnmuteUser];
        userMuted := false;
      }
    }
  }
}
