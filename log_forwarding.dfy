/** The log-forwarding buffer that `Debugger.forwardLogData` and the `Logging`
    implementation installed by `Assurance.queueLogsWithMetaData` both implement:
    entries tagged by the SDK itself are dropped, accepted entries are enriched and,
    while no handler is registered, cached; the first call that finds a handler flushes
    the cache to it in arrival order and then delivers its own entry.

    This module states that behaviour as functions; the two classes that keep the cache
    (DebuggerLog.Debugger and AssuranceApi.ForwardingLogger) are proved against it. */
module LogForwarding {
  import opened Common

  /** A log entry: the `Map<String, Object>` built by a level method. */
  type LogEntry = map<string, Value>

  /** The four levels of the `Logging` interface. */
  datatype Level = Trace | Debug | Warning | Error

  function LevelName(level: Level): (r: string)
    ensures r in {"trace", "debug", "warning", "error"}
  {
    match level
    case Trace => "trace"
    case Debug => "debug"
    case Warning => "warning"
    case Error => "error"
  }

  /** Level names are distinct, so an entry's "level" value identifies the method that
      built it. */
  lemma LevelNameInjective(a: Level, b: Level)
    ensures LevelName(a) == LevelName(b) <==> a == b
  {
  }

  /** A `LogDataHandler`. Both plugins register the same shape of handler: a closure
      that wraps each entry in a "log" event and queues it, outbound, on the session the
      plugin had when it registered, or drops it when there was none. A handler is
      identified here by that captured session. */
  datatype LogHandler = ForwardToSession(session: Option<SessionRef>)

  /** One `handler.execute(entry)` call. */
  datatype Delivery = Delivery(handler: LogHandler, entry: LogEntry)

  /** The map a level method builds from its arguments. */
  function LogData(tag: string, message: string, level: Level, metaData: map<string, Value>): (r: LogEntry)
    ensures r.Keys == {"tag", "message", "level", "metaData"}
    ensures r["tag"] == Str(tag) && r["message"] == Str(message)
    ensures r["level"] == Str(LevelName(level)) && r["metaData"] == Obj(metaData)
  {
    map["tag" := Str(tag), "message" := Str(message), "level" := Str(LevelName(level)), "metaData" := Obj(metaData)]
  }

  /** `data.get("tag").toString()` can be evaluated: the entry has a String tag. */
  predicate HasTextTag(data: LogEntry) {
    "tag" in data && data["tag"].Str?
  }

  /** The SDK's own entries (their tag contains "Assurance") are never forwarded. */
  predicate IsDropped(data: LogEntry)
    requires HasTextTag(data)
  {
    Contains(data["tag"].s, "Assurance")
  }

  /** The three fields `forwardLogData` adds to an accepted entry: the current thread's
      name (under "extension" and "threadName") and the current time in milliseconds. */
  function Enrich(data: LogEntry, threadName: string, now: int): (r: LogEntry)
    ensures r.Keys == data.Keys + {"extension", "timestamp", "threadName"}
    ensures r["extension"] == Str(threadName) && r["threadName"] == Str(threadName)
    ensures r["timestamp"] == Int(now)
    ensures forall k :: k in data && k != "extension" && k != "timestamp" && k != "threadName" ==> r[k] == data[k]
  {
    data["extension" := Str(threadName)]["timestamp" := Int(now)]["threadName" := Str(threadName)]
  }

  /** What one call accepts into the stream of forwarded entries: nothing for a dropped
      entry, otherwise the enriched entry. */
  function Accepted(data: LogEntry, threadName: string, now: int): (r: seq<LogEntry>)
    requires HasTextTag(data)
    ensures IsDropped(data) ==> r == []
    ensures !IsDropped(data) ==> r == [Enrich(data, threadName, now)]
  {
    if IsDropped(data) then [] else [Enrich(data, threadName, now)]
  }

  /** The calls `handler.execute(e)` for each `e` of `entries`, in order. */
  function DeliverAll(handler: LogHandler, entries: seq<LogEntry>): (r: seq<Delivery>)
    ensures |r| == |entries|
    ensures forall i :: 0 <= i < |entries| ==> r[i] == Delivery(handler, entries[i])
  {
    seq(|entries|, i requires 0 <= i < |entries| => Delivery(handler, entries[i]))
  }

  /** The entries carried by a sequence of deliveries. */
  function Entries(ds: seq<Delivery>): (r: seq<LogEntry>)
    ensures |r| == |ds|
    ensures forall i :: 0 <= i < |ds| ==> r[i] == ds[i].entry
  {
    seq(|ds|, i requires 0 <= i < |ds| => ds[i].entry)
  }

  lemma EntriesAppend(a: seq<Delivery>, b: seq<Delivery>)
    ensures Entries(a + b) == Entries(a) + Entries(b)
  {
  }

  lemma EntriesOfDeliverAll(handler: LogHandler, entries: seq<LogEntry>)
    ensures Entries(DeliverAll(handler, entries)) == entries
  {
  }

  /** Delivering a prefix one entry longer appends one delivery. */
  lemma DeliverAllSnoc(handler: LogHandler, entries: seq<LogEntry>, i: nat)
    requires i < |entries|
    ensures DeliverAll(handler, entries[..i + 1]) == DeliverAll(handler, entries[..i]) + [Delivery(handler, entries[i])]
  {
    assert entries[..i + 1][..i] == entries[..i];
  }

  /** Delivering one more entry appends one delivery. */
  lemma DeliverAllAppend(handler: LogHandler, entries: seq<LogEntry>, e: LogEntry)
    ensures DeliverAll(handler, entries + [e]) == DeliverAll(handler, entries) + [Delivery(handler, e)]
  {
    assert (entries + [e])[..|entries|] == entries;
  }

  /** The conservation invariant of a cache-keeping object survives a step that itself
      conserves entries. */
  lemma ConservationPreserved(delivered: seq<Delivery>, cache: seq<LogEntry>, accepted: seq<LogEntry>,
                              stepDelivered: seq<Delivery>, stepCache: seq<LogEntry>, stepAccepted: seq<LogEntry>)
    requires Entries(delivered) + cache == accepted
    requires Entries(stepDelivered) + stepCache == cache + stepAccepted
    ensures Entries(delivered + stepDelivered) + stepCache == accepted + stepAccepted
  {
    EntriesAppend(delivered, stepDelivered);
    calc {
      Entries(delivered + stepDelivered) + stepCache;
      Entries(delivered) + (Entries(stepDelivered) + stepCache);
      Entries(delivered) + (cache + stepAccepted);
      (Entries(delivered) + cache) + stepAccepted;
    }
  }

  /** The outcome of one `forwardLogData` call: the handler calls it makes, in order,
      and the cache it leaves. */
  datatype StepResult = StepResult(delivered: seq<Delivery>, cache: seq<LogEntry>)

  /** One `forwardLogData(data)` call, given the handler registered at the time of the
      call and the cache before it. */
  function ForwardStep(handler: Option<LogHandler>, cache: seq<LogEntry>, data: LogEntry, threadName: string, now: int): StepResult
    requires HasTextTag(data)
  {
    if IsDropped(data) then StepResult([], cache)
    else
      var entry := Enrich(data, threadName, now);
      match handler
      case None => StepResult([], cache + [entry])
      case Some(h) => StepResult(DeliverAll(h, cache + [entry]), [])
  }

  /** One call at a time: a dropped entry changes nothing; with no handler the entry
      goes to the end of the cache and nothing is delivered; with a handler the handler
      receives the old cache in order, then the entry, and the cache ends empty. */
  lemma ForwardStepCases(handler: Option<LogHandler>, cache: seq<LogEntry>, data: LogEntry, threadName: string, now: int)
    requires HasTextTag(data)
    ensures var r := ForwardStep(handler, cache, data, threadName, now);
      && (IsDropped(data) ==> r.delivered == [] && r.cache == cache)
      && (!IsDropped(data) && handler.None? ==> r.delivered == [] && r.cache == cache + [Enrich(data, threadName, now)])
      && (!IsDropped(data) && handler.Some? ==>
            && r.cache == []
            && |r.delivered| == |cache| + 1
            && (forall i :: 0 <= i < |cache| ==> r.delivered[i] == Delivery(handler.value, cache[i]))
            && r.delivered[|cache|] == Delivery(handler.value, Enrich(data, threadName, now)))
  {
  }

  /** Conservation for one call: what is delivered, followed by what stays cached, is
      the old cache followed by what the call accepted. */
  lemma ForwardStepConserves(handler: Option<LogHandler>, cache: seq<LogEntry>, data: LogEntry, threadName: string, now: int)
    requires HasTextTag(data)
    ensures var r := ForwardStep(handler, cache, data, threadName, now);
      Entries(r.delivered) + r.cache == cache + Accepted(data, threadName, now)
  {
    if !IsDropped(data) && handler.Some? {
      EntriesOfDeliverAll(handler.value, cache + [Enrich(data, threadName, now)]);
    }
  }

  /** One call to `forwardLogData`, with the handler registered at that moment and the
      values of the thread name and the clock. */
  datatype LogCall = LogCall(handler: Option<LogHandler>, data: LogEntry, threadName: string, now: int)

  predicate AllTextTagged(calls: seq<LogCall>) {
    forall i :: 0 <= i < |calls| ==> HasTextTag(calls[i].data)
  }

  /** A run of calls, from the given cache. */
  function Run(calls: seq<LogCall>, cache: seq<LogEntry>): StepResult
    requires AllTextTagged(calls)
  {
    if calls == [] then StepResult([], cache)
    else
      var c := calls[0];
      var first := ForwardStep(c.handler, cache, c.data, c.threadName, c.now);
      var rest := Run(calls[1..], first.cache);
      StepResult(first.delivered + rest.delivered, rest.cache)
  }

  /** Every entry a run accepts, in arrival order. */
  function AcceptedAll(calls: seq<LogCall>): seq<LogEntry>
    requires AllTextTagged(calls)
  {
    if calls == [] then []
    else Accepted(calls[0].data, calls[0].threadName, calls[0].now) + AcceptedAll(calls[1..])
  }

  /** The tail of a run whose entries all carry a String tag is such a run too. */
  lemma TailTextTagged(calls: seq<LogCall>)
    requires AllTextTagged(calls) && calls != []
    ensures AllTextTagged(calls[1..])
  {
    forall i | 0 <= i < |calls[1..]| ensures HasTextTag(calls[1..][i].data) {
      assert calls[1..][i] == calls[i + 1];
    }
  }

  /** Two conservation steps compose. */
  lemma ChainConservation<T>(d1: seq<T>, c1: seq<T>, d2: seq<T>, c2: seq<T>, c0: seq<T>, a1: seq<T>, a2: seq<T>)
    requires d1 + c1 == c0 + a1
    requires d2 + c2 == c1 + a2
    ensures (d1 + d2) + c2 == c0 + (a1 + a2)
  {
    calc {
      (d1 + d2) + c2;
      d1 + (d2 + c2);
      d1 + (c1 + a2);
      (d1 + c1) + a2;
      (c0 + a1) + a2;
    }
  }

  /** Conservation over any run: no accepted entry is lost, duplicated or reordered.
      All entries delivered to handlers, followed by the final cache, are the initial
      cache followed by every accepted entry in arrival order. */
  lemma {:induction false} RunConserves(calls: seq<LogCall>, cache: seq<LogEntry>)
    requires AllTextTagged(calls)
    ensures Entries(Run(calls, cache).delivered) + Run(calls, cache).cache == cache + AcceptedAll(calls)
  {
    if calls != [] {
      var c := calls[0];
      var first := ForwardStep(c.handler, cache, c.data, c.threadName, c.now);
      TailTextTagged(calls);
      var rest := Run(calls[1..], first.cache);
      ForwardStepConserves(c.handler, cache, c.data, c.threadName, c.now);
      RunConserves(calls[1..], first.cache);
      EntriesAppend(first.delivered, rest.delivered);
      ChainConservation(Entries(first.delivered), first.cache, Entries(rest.delivered), rest.cache,
                        cache, Accepted(c.data, c.threadName, c.now), AcceptedAll(calls[1..]));
    }
  }

  /** After any run that ends with an accepted entry while a handler is registered,
      nothing is cached: the flush leaves an empty cache. */
  lemma {:induction false} RunEndsFlushed(calls: seq<LogCall>, cache: seq<LogEntry>)
    requires AllTextTagged(calls) && calls != []
    requires var last := calls[|calls| - 1]; last.handler.Some? && !IsDropped(last.data)
    ensures Run(calls, cache).cache == []
  {
    var c := calls[0];
    var first := ForwardStep(c.handler, cache, c.data, c.threadName, c.now);
    if |calls| > 1 {
      TailTextTagged(calls);
      assert calls[1..][|calls[1..]| - 1] == calls[|calls| - 1];
      RunEndsFlushed(calls[1..], first.cache);
    }
  }
}
