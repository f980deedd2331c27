/** What the two log plugins share: the validation of the control detail that switches
    log forwarding on or off, and the notice each writes to the session's local UI log. */
module PluginSupport {
  import opened Common

  /** One `session.logLocalUI(visibility, message)` call. */
  datatype UiLog = UiLog(session: SessionRef, visibility: UiLogVisibility, message: string)

  const START_FORWARDING_NOTICE: string := "Received Assurance command to start forwarding logs"
  const STOP_FORWARDING_NOTICE: string := "Received Assurance command to stop forwarding logs"

  /** `AssuranceUtil.isNullOrEmpty` on a control-detail map. */
  predicate DetailMissing(detail: Option<map<string, Value>>) {
    detail.None? || detail.value == map[]
  }

  /** The switch a control detail requests under `key` ("enable" or "started"): nothing
      when the detail is null or empty or when the value there is absent or not a
      Boolean, and otherwise that Boolean. */
  function RequestedSwitch(detail: Option<map<string, Value>>, key: string): (r: Option<bool>)
    ensures r.Some? <==> !DetailMissing(detail) && key in detail.value && detail.value[key].Bool?
    ensures r.Some? ==> r.value == detail.value[key].b
  {
    if DetailMissing(detail) then None
    else if key !in detail.value then None
    else match detail.value[key]
      case Bool(b) => Some(b)
      case _ => None
  }

  /** The local UI notice written when the switch is flipped: one HIGH-visibility line
      on the parent session, or nothing when there is no parent session. */
  function SwitchNotice(session: Option<SessionRef>, enable: bool): (r: seq<UiLog>)
    ensures session.None? <==> r == []
    ensures session.Some? ==>
      r == [UiLog(session.value, High, if enable then START_FORWARDING_NOTICE else STOP_FORWARDING_NOTICE)]
  {
    if session.None? then []
    else [UiLog(session.value, High, if enable then START_FORWARDING_NOTICE else STOP_FORWARDING_NOTICE)]
  }
}
