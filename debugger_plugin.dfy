/** `AssurancePluginDebugger`: the "sdkDebugger" plugin. A control event either carries
    a debugger command (sub-type "command"), answered through `Debugger`'s log buffer or
    by dispatching a debug event to Mobile Core, or switches `Debugger` log forwarding
    on or off through its "started" entry. */
module DebuggerPlugin {
  import opened Common
  import opened LogForwarding
  import opened PluginSupport
  import opened AssuranceApi
  import opened DebuggerLog

  /** `getControlType()`. */
  const SDK_DEBUGGER: string := "sdkDebugger"

  /** `getVendor()` and `getControlType()`: the mobile vendor, and a control type that
      is neither the log forwarder's nor the session's start-forwarding handshake. */
  function Vendor(): (r: string)
    ensures r == VENDOR_ASSURANCE_MOBILE
  {
    VENDOR_ASSURANCE_MOBILE
  }

  function ControlType(): (r: string)
    ensures r == SDK_DEBUGGER
    ensures r != LOG_FORWARDING && r != START_EVENT_FORWARDING
  {
    SDK_DEBUGGER
  }

  // ---------------------------------------------------------------------------
  // What `toString()` gives for a payload value.

  /** The decimal digits of `n`. */
  function DecimalText(n: nat): (r: string)
    ensures |r| > 0 && forall i :: 0 <= i < |r| ==> '0' <= r[i] <= '9'
    decreases n
  {
    var digit := ['0' + (n % 10) as char];
    if n < 10 then digit else DecimalText(n / 10) + digit
  }

  /** `Objects.requireNonNull(v).toString()`: `None` stands for the
      `NullPointerException` a null value raises. A nested map is rendered as "{...}":
      `HashMap.toString` depends on an iteration order Java leaves open, and every
      rendering of a map starts with '{'. */
  function ValueText(v: Value): (r: Option<string>)
    ensures r.None? <==> v.Null?
  {
    match v
    case Null => None
    case Bool(b) => Some(if b then "true" else "false")
    case Int(i) => Some(if i < 0 then "-" + DecimalText(-i) else DecimalText(i))
    case Str(s) => Some(s)
    case Obj(_) => Some("{...}")
  }

  /** A word that starts with a lower-case letter and is neither "true" nor "false" can
      only be the text of a String value. */
  lemma ValueTextOfWord(v: Value, w: string)
    requires ValueText(v) == Some(w)
    requires |w| > 0 && 'a' <= w[0] <= 'z' && w != "true" && w != "false"
    ensures v == Str(w)
  {
  }

  // ---------------------------------------------------------------------------
  // getEventSubType

  const LOAD_TRIGGER: string := "loadTrigger"
  const COMMAND: string := "command"

  /** `getEventSubType`: 0 for a "loadTrigger" sub-type, 1 for "command", -1 for any
      other value and for a payload without one; `None` when the sub-type is present but
      null, where the source throws `NullPointerException`. */
  function EventSubType(payload: map<string, Value>): (r: Option<int>)
    ensures r.None? <==> "subType" in payload && payload["subType"].Null?
    ensures r == Some(0) <==> "subType" in payload && payload["subType"] == Str(LOAD_TRIGGER)
    ensures r == Some(1) <==> "subType" in payload && payload["subType"] == Str(COMMAND)
    ensures r.Some? ==> -1 <= r.value <= 1
  {
    if "subType" in payload then
      var text := ValueText(payload["subType"]);
      if text.None? then None
      else
        if text.value == LOAD_TRIGGER then
          ValueTextOfWord(payload["subType"], LOAD_TRIGGER);
          Some(0)
        else if text.value == COMMAND then
          ValueTextOfWord(payload["subType"], COMMAND);
          Some(1)
        else Some(-1)
    else Some(-1)
  }

  // ---------------------------------------------------------------------------
  // handleCommand

  /** What `handleCommand(args)` does besides building maps: nothing, dispatch a debug
      event with the given action, or forward a "CMD" entry carrying `result`. */
  datatype Response =
    | Ignored
    | DispatchDebug(action: string)
    | ForwardResult(result: map<string, Value>)

  /** The reply of an unknown command. */
  const INVALID_COMMAND_RESULT: map<string, Value> :=
    map["result" := Str("failure"), "reason" := Str("Invalid command")]

  /** The response to `args`. `prefs` stands for what `retrieveSharedPreferences()`
      reads from the application's preference files. */
  function CommandResponse(args: string, prefs: map<string, Value>): (r: Response)
    ensures r == Ignored <==> args == ""
    ensures r.DispatchDebug? <==> args == "pause" || args == "resume"
    ensures r.DispatchDebug? ==> r.action == args
    ensures r.ForwardResult? ==>
      r.result == (if args == "prefs" then prefs else INVALID_COMMAND_RESULT)
  {
    if args == "" then Ignored
    else if args == "prefs" then ForwardResult(prefs)
    else if args == "pause" || args == "resume" then DispatchDebug(args)
    else ForwardResult(INVALID_COMMAND_RESULT)
  }

  /** The event `MobileCore.dispatchEvent` receives for "pause" and "resume". */
  function DebugEvent(action: string): (r: CoreEvent)
    ensures r.name == "Debug Event" && r.eventType == Literal("debug") && r.source == Literal("assurance")
    ensures r.data.Keys == {"action"} && r.data["action"] == Str(action)
  {
    CoreEvent("Debug Event", Literal("debug"), Literal("assurance"), map["action" := Str(action)])
  }

  /** The entry `handleCommand` hands to `Debugger.forwardLogData`. */
  function CommandEntry(result: map<string, Value>, now: int): (r: LogEntry)
    ensures r.Keys == {"tag", "timestamp", "result", "metaData"}
    ensures r["tag"] == Str("CMD") && r["result"] == Obj(result) && r["metaData"] == Obj(map[])
    ensures r["timestamp"] == Int(now)
  {
    map["tag" := Str("CMD"), "timestamp" := Int(now), "result" := Obj(result), "metaData" := Obj(map[])]
  }

  /** A command reply is never lost to the filter: it always has a String tag and is
      accepted, so it is either cached or delivered. */
  lemma CommandEntryAccepted(result: map<string, Value>, now: int, threadName: string, forwarded: int)
    ensures HasTextTag(CommandEntry(result, now))
    ensures !IsDropped(CommandEntry(result, now))
    ensures |Accepted(CommandEntry(result, now), threadName, forwarded)| == 1
  {
    assert CommandEntry(result, now)["tag"].s == "CMD";
  }

  // ---------------------------------------------------------------------------
  // onEventReceived

  /** How a control event is handled. */
  datatype Action =
    | IgnoreEvent
    | NullPointer
    | RunCommand(args: string)
    | Switch(on: bool)

  /** The branch `onEventReceived` takes: an event without control detail is ignored; a
      null sub-type, or a command event whose "args" is absent or null, throws; a command
      event runs its arguments; any other event switches forwarding only when "started"
      is a Boolean. */
  function EventAction(event: AssuranceEvent): (r: Action)
    ensures DetailMissing(event.controlDetail) ==> r == IgnoreEvent
    ensures r.RunCommand? ==>
      && EventSubType(event.payload) == Some(1)
      && "args" in event.controlDetail.value
      && ValueText(event.controlDetail.value["args"]) == Some(r.args)
    ensures r.Switch? ==>
      && EventSubType(event.payload) != Some(1)
      && RequestedSwitch(event.controlDetail, "started") == Some(r.on)
    ensures !DetailMissing(event.controlDetail) && EventSubType(event.payload) == Some(1) ==>
      r.RunCommand? || r.NullPointer?
    ensures !DetailMissing(event.controlDetail) && EventSubType(event.payload).None? ==> r == NullPointer
    ensures !DetailMissing(event.controlDetail) && EventSubType(event.payload) == Some(1) ==>
      r == (if "args" in event.controlDetail.value && ValueText(event.controlDetail.value["args"]).Some?
            then RunCommand(ValueText(event.controlDetail.value["args"]).value)
            else NullPointer)
    ensures !DetailMissing(event.controlDetail) && EventSubType(event.payload).Some? && EventSubType(event.payload).value != 1 ==>
      r == (if RequestedSwitch(event.controlDetail, "started").Some?
            then Switch(RequestedSwitch(event.controlDetail, "started").value)
            else IgnoreEvent)
  {
    if DetailMissing(event.controlDetail) then IgnoreEvent
    else
      var subType := EventSubType(event.payload);
      if subType.None? then NullPointer
      else if subType.value == 1 then
        var detail := event.controlDetail.value;
        if "args" !in detail then NullPointer
        else
          var args := ValueText(detail["args"]);
          if args.None? then NullPointer else RunCommand(args.value)
      else
        var started := RequestedSwitch(event.controlDetail, "started");
        if started.None? then IgnoreEvent else Switch(started.value)
  }

  /** How a call to `onEventReceived` ends. */
  datatype Outcome = Completed | NullPointerThrown

  class AssurancePluginDebugger {
    var logEnabled: bool
    var parentSession: Option<SessionRef>
    /** Every `logLocalUI` call this plugin made, in order. */
    ghost var uiLogs: seq<UiLog>
    /** Every event this plugin handed to `MobileCore.dispatchEvent`, in order. */
    ghost var dispatched: seq<CoreEvent>

    constructor ()
      ensures !logEnabled && parentSession == None && uiLogs == [] && dispatched == []
    {
      logEnabled := false;
      parentSession := None;
      uiLogs := [];
      dispatched := [];
    }

    /** `handleCommand(args)`, with the clock and the thread name as inputs. */
    method HandleCommand(args: string, prefs: map<string, Value>, debugger: Debugger, threadName: string, now: int)
      requires debugger.Valid()
      modifies this`dispatched, debugger`cachedLogs, debugger`accepted, debugger`delivered
      ensures debugger.Valid()
      ensures var response := CommandResponse(args, prefs);
        && dispatched == old(dispatched) + (if response.DispatchDebug? then [DebugEvent(args)] else [])
        && (!response.ForwardResult? ==>
              && debugger.cachedLogs == old(debugger.cachedLogs)
              && debugger.accepted == old(debugger.accepted)
              && debugger.delivered == old(debugger.delivered))
        && (response.ForwardResult? ==>
              var entry := CommandEntry(response.result, now);
              var step := ForwardStep(debugger.handler, old(debugger.cachedLogs), entry, threadName, now);
              && debugger.cachedLogs == step.cache
              && debugger.delivered == old(debugger.delivered) + step.delivered
              && debugger.accepted == old(debugger.accepted) + [Enrich(entry, threadName, now)])
    {
      var response := CommandResponse(args, prefs);
      match response
      case Ignored =>
      case DispatchDebug(action) =>
        dispatched := dispatched + [DebugEvent(action)];
      case ForwardResult(result) =>
        var entry := CommandEntry(result, now);
        CommandEntryAccepted(result, now, threadName, now);
        debugger.ForwardLogData(entry, threadName, now);
    }

    /** `onEventReceived`, with `prefs`, the thread name and the clock as inputs. */
    method OnEventReceived(event: AssuranceEvent, prefs: map<string, Value>, debugger: Debugger, threadName: string, now: int)
      returns (outcome: Outcome)
      requires debugger.Valid()
      modifies this`logEnabled, this`uiLogs, this`dispatched
      modifies debugger`handler, debugger`cachedLogs, debugger`accepted, debugger`delivered
      ensures debugger.Valid()
      ensures var action := EventAction(event);
        && (outcome == NullPointerThrown <==> action == NullPointer)
        && (!action.Switch? ==> logEnabled == old(logEnabled) && uiLogs == old(uiLogs) && debugger.handler == old(debugger.handler))
        && (!action.RunCommand? ==>
              && dispatched == old(dispatched)
              && debugger.cachedLogs == old(debugger.cachedLogs)
              && debugger.accepted == old(debugger.accepted)
              && debugger.delivered == old(debugger.delivered))
        && (action.RunCommand? ==>
              var response := CommandResponse(action.args, prefs);
              && dispatched == old(dispatched) + (if response.DispatchDebug? then [DebugEvent(action.args)] else [])
              && (!response.ForwardResult? ==>
                    && debugger.cachedLogs == old(debugger.cachedLogs)
                    && debugger.accepted == old(debugger.accepted)
                    && debugger.delivered == old(debugger.delivered))
              && (response.ForwardResult? ==>
                    var entry := CommandEntry(response.result, now);
                    var step := ForwardStep(debugger.handler, old(debugger.cachedLogs), entry, threadName, now);
                    && debugger.cachedLogs == step.cache
                    && debugger.delivered == old(debugger.delivered) + step.delivered
                    && debugger.accepted == old(debugger.accepted) + [Enrich(entry, threadName, now)]))
        && (action.Switch? ==>
              && logEnabled == action.on
              && uiLogs == old(uiLogs) + SwitchNotice(parentSession, action.on)
              && debugger.handler == (if action.on then Some(ForwardToSession(parentSession)) else old(debugger.handler)))
    {
      var action := EventAction(event);
      match action
      case IgnoreEvent =>
        outcome := Completed;
      case NullPointer =>
        outcome := NullPointerThrown;
      case RunCommand(args) =>
        HandleCommand(args, prefs, debugger, threadName, now);
        outcome := Completed;
      case Switch(on) =>
        logEnabled := on;
        var session := parentSession;
        uiLogs := uiLogs + SwitchNotice(session, on);
        if on {
          debugger.RegisterLogForwardingHandler(Some(ForwardToSession(session)));
        }
        outcome := Completed;
    }

    /** `onRegistered`: remembers the parent session. */
    method OnRegistered(session: SessionRef)
      modifies this`parentSession
      ensures parentSession == Some(session)
    {
      parentSession := Some(session);
    }

    /** `onSessionConnected`: does nothing (it modifies nothing). */
    method OnSessionConnected()
    {
    }

    /** `onSessionDisconnected(code)`: switches forwarding off. */
    method OnSessionDisconnected(code: int)
      modifies this`logEnabled
      ensures !logEnabled
    {
      logEnabled := false;
    }

    /** `onSessionTerminated`: forgets the parent session. */
    method OnSessionTerminated()
      modifies this`parentSession
      ensures parentSession == None
    {
      parentSession := None;
    }
  }

  /** A command event never flips the forwarding switch, whatever its "started" entry. */
  lemma CommandEventNeverSwitches(event: AssuranceEvent)
    requires EventSubType(event.payload) == Some(1)
    ensures !EventAction(event).Switch?
  {
  }
}
