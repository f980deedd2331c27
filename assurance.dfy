/** `com.adobe.marketing.mobile.Assurance`, the public entry point: the deep-link check of
    `startSession`, the process-wide log-forwarding handler slot (`HANDLER`), and the
    `Logging` implementation that `queueLogsWithMetaData` installs, which keeps its own
    cache of entries logged before a handler is registered. */
module AssuranceApi {
  import opened Common
  import opened LogForwarding

  /** `DEEPLINK_SESSION_ID_KEY`. */
  const DEEPLINK_SESSION_ID_KEY: string := "adb_validation_sessionid"
  /** `START_SESSION_URL`. */
  const START_SESSION_URL: string := "startSessionURL"

  /** The event type and source names a Mobile Core event is built with: the SDK's
      `EventType.ASSURANCE` and `EventSource.REQUEST_CONTENT` constants (defined in Mobile
      Core, outside this repository), or a literal string. */
  datatype EventName = EventTypeAssurance | EventSourceRequestContent | Literal(s: string)

  /** An event handed to `MobileCore.dispatchEvent`. */
  datatype CoreEvent = CoreEvent(name: string, eventType: EventName, source: EventName, data: map<string, Value>)

  /** `startSession(url)`: the event it dispatches, if any. A URL that does not contain
      the deep-link session key is ignored; any other URL makes exactly one "Assurance
      Start Session" request whose only data is the URL under "startSessionURL". */
  function StartSession(url: string): (dispatched: Option<CoreEvent>)
    ensures dispatched.Some? <==> exists i :: OccursAt(url, DEEPLINK_SESSION_ID_KEY, i)
    ensures dispatched.Some? ==>
      && dispatched.value.name == "Assurance Start Session"
      && dispatched.value.eventType == EventTypeAssurance
      && dispatched.value.source == EventSourceRequestContent
      && dispatched.value.data.Keys == {START_SESSION_URL}
      && dispatched.value.data[START_SESSION_URL] == Str(url)
  {
    ContainsIffOccurs(url, DEEPLINK_SESSION_ID_KEY);
    if !Contains(url, DEEPLINK_SESSION_ID_KEY) then None
    else Some(CoreEvent("Assurance Start Session", EventTypeAssurance, EventSourceRequestContent,
                        map[START_SESSION_URL := Str(url)]))
  }

  /** A deep link carrying the session key starts a session with exactly that URL. */
  lemma StartSessionAcceptsDeepLink(prefix: string, suffix: string)
    ensures var url := prefix + DEEPLINK_SESSION_ID_KEY + suffix;
      StartSession(url).Some? && StartSession(url).value.data[START_SESSION_URL] == Str(url)
  {
    var url := prefix + DEEPLINK_SESSION_ID_KEY + suffix;
    assert url[|prefix|..|prefix| + |DEEPLINK_SESSION_ID_KEY|] == DEEPLINK_SESSION_ID_KEY;
    assert OccursAt(url, DEEPLINK_SESSION_ID_KEY, |prefix|);
  }

  /** The static state of `Assurance` that the log forwarding uses: `HANDLER`. */
  class Assurance {
    var handler: Option<LogHandler>

    constructor ()
      ensures handler == None
    {
      handler := None;
    }

    /** `registerLogForwardingHandler`: replaces the shared handler reference. */
    method RegisterLogForwardingHandler(h: Option<LogHandler>)
      modifies this`handler
      ensures handler == h
    {
      handler := h;
    }

    /** `queueLogsWithMetaData`: creates the `Logging` implementation, which starts with
        an empty cache of its own and reads this object's handler. Installing it with
        `ServiceProvider.setLoggingService` is not modelled. */
    method QueueLogsWithMetaData() returns (logger: ForwardingLogger)
      ensures fresh(logger) && logger.Valid()
      ensures logger.api == this && logger.cachedLogs == []
      ensures logger.accepted == [] && logger.delivered == []
    {
      logger := new ForwardingLogger(this);
    }
  }

  /** The anonymous `Logging` implementation installed by `queueLogsWithMetaData`: its
      `cachedLogs` belongs to the instance; the handler it flushes to is the shared one. */
  class ForwardingLogger {
    const api: Assurance
    var cachedLogs: seq<LogEntry>
    /** Every entry accepted by this logger, in arrival order. */
    ghost var accepted: seq<LogEntry>
    /** Every `handler.execute(entry)` call this logger made, in order. */
    ghost var delivered: seq<Delivery>

    /** Conservation: delivered entries followed by cached entries are the accepted ones. */
    ghost predicate Valid()
      reads this
    {
      Entries(delivered) + cachedLogs == accepted
    }

    constructor (api: Assurance)
      ensures Valid() && this.api == api
      ensures cachedLogs == [] && accepted == [] && delivered == []
    {
      this.api := api;
      cachedLogs := [];
      accepted := [];
      delivered := [];
    }

    /** The private `forwardLogData` of the installed logger. */
    method ForwardLogData(data: LogEntry, threadName: string, now: int)
      requires Valid() && HasTextTag(data)
      modifies this`cachedLogs, this`accepted, this`delivered
      ensures Valid()
      ensures cachedLogs == ForwardStep(api.handler, old(cachedLogs), data, threadName, now).cache
      ensures delivered == old(delivered) + ForwardStep(api.handler, old(cachedLogs), data, threadName, now).delivered
      ensures accepted == old(accepted) + Accepted(data, threadName, now)
    {
      ghost var d0, c0 := delivered, cachedLogs;
      ghost var step := ForwardStep(api.handler, c0, data, threadName, now);
      ForwardStepConserves(api.handler, c0, data, threadName, now);
      ConservationPreserved(d0, c0, accepted, step.delivered, step.cache, Accepted(data, threadName, now));
      if IsDropped(data) {
        assert step == StepResult([], c0);
        assert d0 + [] == d0;
        return;
      }
      var entry := Enrich(data, threadName, now);
      accepted := accepted + [entry];
      var h := api.handler;
      if h.Some? {
        ghost var flush := DeliverAll(h.value, c0);
        assert step == StepResult(DeliverAll(h.value, c0 + [entry]), []);
        DeliverAllAppend(h.value, c0, entry);
        if cachedLogs != [] {
          FlushTo(h.value);
        } else {
          assert flush == [];
          assert d0 + flush == d0;
        }
        assert delivered == d0 + flush;
        delivered := delivered + [Delivery(h.value, entry)];
        assert delivered == d0 + (flush + [Delivery(h.value, entry)]);
      } else {
        assert step == StepResult([], c0 + [entry]);
        cachedLogs := cachedLogs + [entry];
        assert d0 + [] == d0;
      }
    }

    /** The flush loop: every cached entry goes to the handler, in order, and the cache
        is cleared. */
    method FlushTo(h: LogHandler)
      modifies this`cachedLogs, this`delivered
      ensures delivered == old(delivered) + DeliverAll(h, old(cachedLogs))
      ensures cachedLogs == []
    {
      var i := 0;
      while i < |cachedLogs|
        invariant cachedLogs == old(cachedLogs)
        invariant 0 <= i <= |cachedLogs|
        invariant delivered == old(delivered) + DeliverAll(h, cachedLogs[..i])
      {
        DeliverAllSnoc(h, cachedLogs, i);
        delivered := delivered + [Delivery(h, cachedLogs[i])];
        i := i + 1;
      }
      assert cachedLogs[..i] == cachedLogs;
      cachedLogs := [];
    }

    /** A two-argument level method: the three-argument form with an empty metaData. */
    method Log(level: Level, tag: string, message: string, threadName: string, now: int)
      requires Valid()
      modifies this`cachedLogs, this`accepted, this`delivered
      ensures Valid()
      ensures var data := LogData(tag, message, level, map[]);
        && cachedLogs == ForwardStep(api.handler, old(cachedLogs), data, threadName, now).cache
        && delivered == old(delivered) + ForwardStep(api.handler, old(cachedLogs), data, threadName, now).delivered
        && accepted == old(accepted) + Accepted(data, threadName, now)
    {
      LogWithMetaData(level, tag, message, map[], threadName, now);
    }

    /** A three-argument level method: builds { tag, message, level, metaData } and
        forwards it. Writing to `android.util.Log` is not modelled. */
    method LogWithMetaData(level: Level, tag: string, message: string, metaData: map<string, Value>, threadName: string, now: int)
      requires Valid()
      modifies this`cachedLogs, this`accepted, this`delivered
      ensures Valid()
      ensures var data := LogData(tag, message, level, metaData);
        && cachedLogs == ForwardStep(api.handler, old(cachedLogs), data, threadName, now).cache
        && delivered == old(delivered) + ForwardStep(api.handler, old(cachedLogs), data, threadName, now).delivered
        && accepted == old(accepted) + Accepted(data, threadName, now)
    {
      var data := LogData(tag, message, level, metaData);
      ForwardLogData(data, threadName, now);
    }
  }

  /** Each call of `queueLogsWithMetaData` starts from an empty cache: entries cached by
      an earlier logger are not flushed by a later one. */
  method FreshLoggerScenario(h: LogHandler)
  {
    var api := new Assurance();
    var first := api.QueueLogsWithMetaData();
    var cached := map["tag" := Str("Edge")];
    assert !IsDropped(cached);
    first.ForwardLogData(cached, "main", 1);
    assert first.cachedLogs == [Enrich(cached, "main", 1)];
    api.RegisterLogForwardingHandler(Some(h));
    var second := api.QueueLogsWithMetaData();
    var sent := map["tag" := Str("Places")];
    assert !IsDropped(sent);
    second.ForwardLogData(sent, "main", 2);
    assert second.delivered == [Delivery(h, Enrich(sent, "main", 2))];
    assert first.cachedLogs == [Enrich(cached, "main", 1)];
  }
}
