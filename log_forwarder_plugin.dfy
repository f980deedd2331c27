/** `AssurancePluginLogForwarder`: the plugin that answers the "logForwarding" control
    command by switching its `logEnabled` flag and, when switched on, registering a
    handler with `Assurance` that forwards every log entry to the parent session. */
module LogForwarderPlugin {
  import opened Common
  import opened LogForwarding
  import opened PluginSupport
  import opened AssuranceApi

  /** `getVendor()`: the Assurance mobile vendor. */
  function Vendor(): (r: string)
    ensures r == VENDOR_ASSURANCE_MOBILE
  {
    VENDOR_ASSURANCE_MOBILE
  }

  /** `getControlType()`: the log-forwarding command, which is not the start-forwarding
      handshake the session handles itself. */
  function ControlType(): (r: string)
    ensures r == LOG_FORWARDING && r != START_EVENT_FORWARDING
  {
    LOG_FORWARDING
  }

  class AssurancePluginLogForwarder {
    var logEnabled: bool
    /** `parentSession`: the session this plugin is registered with, if any. */
    var parentSession: Option<SessionRef>
    /** Every `logLocalUI` call this plugin made, in order. */
    ghost var uiLogs: seq<UiLog>

    constructor ()
      ensures !logEnabled && parentSession == None && uiLogs == []
    {
      logEnabled := false;
      parentSession := None;
      uiLogs := [];
    }

    /** `onEventReceived`. The request is read from the "enable" entry of the control
        detail; an invalid request changes nothing. A valid one sets `logEnabled`;
        switching on registers, with `api`, a handler bound to the current parent
        session (also when there is none), switching off leaves the handler alone. */
    method OnEventReceived(event: AssuranceEvent, api: Assurance)
      modifies this`logEnabled, this`uiLogs, api`handler
      ensures var request := RequestedSwitch(event.controlDetail, "enable");
        && (request.None? ==>
              logEnabled == old(logEnabled) && uiLogs == old(uiLogs) && api.handler == old(api.handler))
        && (request.Some? ==>
              logEnabled == request.value
              && uiLogs == old(uiLogs) + SwitchNotice(parentSession, request.value)
              && api.handler == (if request.value then Some(ForwardToSession(parentSession)) else old(api.handler)))
    {
      var request := RequestedSwitch(event.controlDetail, "enable");
      if request.None? {
        return;
      }
      logEnabled := request.value;
      var session := parentSession;
      uiLogs := uiLogs + SwitchNotice(session, logEnabled);
      if logEnabled {
        api.RegisterLogForwardingHandler(Some(ForwardToSession(session)));
      }
    }

    /** `onRegistered`: remembers the parent session. */
    method OnRegistered(session: SessionRef)
      modifies this`parentSession
      ensures parentSession == Some(session)
    {
      parentSession := Some(session);
    }

    /** `onSessionConnected`: does nothing (it modifies nothing). */
    method OnSessionConnected()
    {
    }

    /** `onSessionDisconnected(code)`: switches forwarding off; the registered handler is
        left in place. */
    method OnSessionDisconnected(code: int)
      modifies this`logEnabled
      ensures !logEnabled
    {
      logEnabled := false;
    }

    /** `onSessionTerminated`: forgets the parent session. */
    method OnSessionTerminated()
      modifies this`parentSession
      ensures parentSession == None
    {
      parentSession := None;
    }
  }

  /** A disable command leaves the handler that an earlier enable command registered. */
  method EnableThenDisableScenario(session: SessionRef)
  {
    var api := new Assurance();
    var plugin := new AssurancePluginLogForwarder();
    plugin.OnRegistered(session);
    var on := AssuranceEvent(VENDOR_ASSURANCE_MOBILE, "control", map[], Some(LOG_FORWARDING), Some(map["enable" := Bool(true)]));
    assert "enable" in on.controlDetail.value;
    plugin.OnEventReceived(on, api);
    assert plugin.logEnabled && api.handler == Some(ForwardToSession(Some(session)));
    var off := AssuranceEvent(VENDOR_ASSURANCE_MOBILE, "control", map[], Some(LOG_FORWARDING), Some(map["enable" := Bool(false)]));
    assert "enable" in off.controlDetail.value;
    plugin.OnEventReceived(off, api);
    assert !plugin.logEnabled && api.handler == Some(ForwardToSession(Some(session)));
    assert |plugin.uiLogs| == 2;
    var bad := AssuranceEvent(VENDOR_ASSURANCE_MOBILE, "control", map[], Some(LOG_FORWARDING), Some(map["enable" := Str("yes")]));
    plugin.OnEventReceived(bad, api);
    assert !plugin.logEnabled && |plugin.uiLogs| == 2;
  }
}
