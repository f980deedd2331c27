/** `com.adobe.marketing.mobile.assurance.Debugger`: a process-wide log-forwarding
    handler slot (`HANDLER`) and a process-wide cache of entries logged before any handler
    was registered (`cachedLogs`). Both are static in the source; here they are the
    fields of one object that stands for the class's static state. */
module DebuggerLog {
  import opened Common
  import opened LogForwarding

  class Debugger {
    /** `HANDLER`: the registered `LogDataHandler`, or null. */
    var handler: Option<LogHandler>
    /** `cachedLogs`: accepted entries not yet handed to a handler, oldest first. */
    var cachedLogs: seq<LogEntry>

    /** Every entry accepted so far, in arrival order. */
    ghost var accepted: seq<LogEntry>
    /** Every `handler.execute(entry)` call made so far, in order. */
    ghost var delivered: seq<Delivery>

    /** Conservation: what has been delivered, followed by what is still cached, is
        exactly the sequence of accepted entries. */
    ghost predicate Valid()
      reads this
    {
      Entries(delivered) + cachedLogs == accepted
    }

    /** The static state at class-load time: no handler and an empty cache. */
    constructor ()
      ensures Valid()
      ensures handler == None && cachedLogs == []
      ensures accepted == [] && delivered == []
    {
      handler := None;
      cachedLogs := [];
      accepted := [];
      delivered := [];
    }

    /** `registerLogForwardingHandler`: replaces the handler and nothing else. The cache
        is neither flushed nor cleared; that happens on the next accepted entry. */
    method RegisterLogForwardingHandler(h: Option<LogHandler>)
      modifies this`handler
      ensures handler == h
    {
      handler := h;
    }

    /** `forwardLogData`. The entry must carry a String tag (the source calls
        `toString()` on it). */
    method ForwardLogData(data: LogEntry, threadName: string, now: int)
      requires Valid() && HasTextTag(data)
      modifies this`cachedLogs, this`accepted, this`delivered
      ensures Valid()
      ensures cachedLogs == ForwardStep(handler, old(cachedLogs), data, threadName, now).cache
      ensures delivered == old(delivered) + ForwardStep(handler, old(cachedLogs), data, threadName, now).delivered
      ensures accepted == old(accepted) + Accepted(data, threadName, now)
    {
      ghost var d0, c0 := delivered, cachedLogs;
      ghost var step := ForwardStep(handler, c0, data, threadName, now);
      ForwardStepConserves(handler, c0, data, threadName, now);
      ConservationPreserved(d0, c0, accepted, step.delivered, step.cache, Accepted(data, threadName, now));
      if IsDropped(data) {
        assert step == StepResult([], c0);
        assert d0 + [] == d0;
        return;
      }
      var entry := Enrich(data, threadName, now);
      accepted := accepted + [entry];
      var h := handler;
      if h.Some? {
        ghost var flush := DeliverAll(h.value, c0);
        assert step == StepResult(DeliverAll(h.value, c0 + [entry]), []);
        DeliverAllAppend(h.value, c0, entry);
        if cachedLogs != [] {
          FlushTo(h.value);
        } else {
          assert flush == [];
          assert d0 + flush == d0;
        }
        assert delivered == d0 + flush;
        delivered := delivered + [Delivery(h.value, entry)];
        assert delivered == d0 + (flush + [Delivery(h.value, entry)]);
      } else {
        assert step == StepResult([], c0 + [entry]);
        cachedLogs := cachedLogs + [entry];
        assert d0 + [] == d0;
      }
    }

    /** The flush loop of `forwardLogData`: every cached entry goes to the handler, in
        order, and the cache is cleared. */
    method FlushTo(h: LogHandler)
      modifies this`cachedLogs, this`delivered
      ensures delivered == old(delivered) + DeliverAll(h, old(cachedLogs))
      ensures cachedLogs == []
    {
      var i := 0;
      while i < |cachedLogs|
        invariant cachedLogs == old(cachedLogs)
        invariant 0 <= i <= |cachedLogs|
        invariant delivered == old(delivered) + DeliverAll(h, cachedLogs[..i])
      {
        DeliverAllSnoc(h, cachedLogs, i);
        delivered := delivered + [Delivery(h, cachedLogs[i])];
        i := i + 1;
      }
      assert cachedLogs[..i] == cachedLogs;
      cachedLogs := [];
    }

    /** A two-argument level method (`trace(tag, message)` and so on): the same as the
        three-argument form with an empty metaData map. */
    method Log(level: Level, tag: string, message: string, threadName: string, now: int)
      requires Valid()
      modifies this`cachedLogs, this`accepted, this`delivered
      ensures Valid()
      ensures var data := LogData(tag, message, level, map[]);
        && cachedLogs == ForwardStep(handler, old(cachedLogs), data, threadName, now).cache
        && delivered == old(delivered) + ForwardStep(handler, old(cachedLogs), data, threadName, now).delivered
        && accepted == old(accepted) + Accepted(data, threadName, now)
    {
      LogWithMetaData(level, tag, message, map[], threadName, now);
    }

    /** A three-argument level method (`trace(tag, message, metaData)` and so on): builds
        the entry { tag, message, level, metaData } and forwards it. Writing to
        `android.util.Log` is not modelled. */
    method LogWithMetaData(level: Level, tag: string, message: string, metaData: map<string, Value>, threadName: string, now: int)
      requires Valid()
      modifies this`cachedLogs, this`accepted, this`delivered
      ensures Valid()
      ensures var data := LogData(tag, message, level, metaData);
        && cachedLogs == ForwardStep(handler, old(cachedLogs), data, threadName, now).cache
        && delivered == old(delivered) + ForwardStep(handler, old(cachedLogs), data, threadName, now).delivered
        && accepted == old(accepted) + Accepted(data, threadName, now)
    {
      var data := LogData(tag, message, level, metaData);
      ForwardLogData(data, threadName, now);
    }
  }

  /** Entries logged before any handler exists are kept in arrival order; the SDK's own
      entries are not. */
  method CacheScenario() returns (d: Debugger)
  {
    d := new Debugger();
    var first := Enrich(LogData("Edge", "first", Debug, map[]), "main", 1);
    var second := Enrich(LogData("Identity", "second", Warning, map[]), "main", 2);
    d.Log(Debug, "Edge", "first", "main", 1);
    assert d.cachedLogs == [first];
    d.Log(Warning, "Identity", "second", "main", 2);
    assert d.cachedLogs == [first, second];
    assert Contains("Assurance", "Assurance");
    d.Log(Error, "Assurance", "own log", "main", 3);
    assert d.cachedLogs == [first, second];
  }

  /** Registering a handler does not flush the cache; the next accepted entry delivers
      the cached entries, in order, before itself. */
  method FlushScenario(h: LogHandler, first: LogEntry, second: LogEntry)
  {
    var d := new Debugger();
    d.cachedLogs, d.accepted := [first, second], [first, second];
    d.RegisterLogForwardingHandler(Some(h));
    assert d.cachedLogs == [first, second] && d.delivered == [];
    var data := map["tag" := Str("Places")];
    assert !IsDropped(data);
    d.ForwardLogData(data, "main", 4);
    var third := Enrich(data, "main", 4);
    assert d.cachedLogs == [];
    assert d.delivered == DeliverAll(h, [first, second, third]);
    assert d.delivered == [Delivery(h, first), Delivery(h, second), Delivery(h, third)];
  }
}
