/** `AssuranceSession`: one connection to an Assurance session. Its own state is the
    reconnect flag, the boot-event flag, the status-listener set, the stored connection
    URL (kept by `AssuranceConnectionDataStore`) and the reconnect runnables posted to the
    reconnect thread; every call it makes on a collaborator is recorded, in order, in
    the ghost `trace`. What the state manager and the socket report is passed in. */
module Session {
  import opened Common
  import opened SessionSpec

  /** `AssuranceWebViewSocket.SocketReadyState`. */
  datatype SocketReadyState = Connecting | Open | Closing | Closed | Unknown

  class AssuranceSession {
    const env: Env
    var isAttemptingToReconnect: bool
    var didClearBootEvents: bool
    var statusListeners: set<Listener>
    /** The connection URL stored by `AssuranceConnectionDataStore` (null when cleared). */
    var storedConnectionUrl: Option<string>
    /** The delays of the `attemptReconnect` runnables posted and not yet run, in order. */
    var pendingReconnects: seq<nat>

    /** Every collaborator call made so far, in order. */
    ghost var trace: seq<Effect>
    /** Where in `trace` the current outage began: the last successful socket connection. */
    ghost var outageStart: nat

    /** The reconnect flag is set exactly when the "reconnecting" notice and the plugin
        notice of an abnormal disconnect have each been sent once since the last
        successful connection, and never more; every posted reconnect waits 0 ms or 5 s. */
    ghost predicate Valid()
      reads this
    {
      && outageStart <= |trace|
      && Count(trace[outageStart..], IsReconnectingNotice) == (if isAttemptingToReconnect then 1 else 0)
      && Count(trace[outageStart..], IsRetryDisconnect) == (if isAttemptingToReconnect then 1 else 0)
      && (forall i :: 0 <= i < |pendingReconnects| ==>
            pendingReconnects[i] == 0 || pendingReconnects[i] == RECONNECT_DELAY)
    }

    /** The constructor: queues the buffered events, if any, in list order (the boot
        events were cleared exactly when there are none to queue), then adds the plugins. */
    constructor (env: Env, storedUrl: Option<string>, plugins: Option<seq<PluginRef>>,
                 bufferedEvents: Option<seq<AssuranceEvent>>)
      ensures Valid()
      ensures this.env == env && storedConnectionUrl == storedUrl
      ensures !isAttemptingToReconnect && statusListeners == {} && pendingReconnects == []
      ensures didClearBootEvents <==> bufferedEvents.None?
      ensures trace == (if bufferedEvents.Some? then Offers(bufferedEvents.value) else [])
                       + (if plugins.Some? then PluginAdds(plugins.value) else [])
    {
      this.env := env;
      isAttemptingToReconnect := false;
      didClearBootEvents := false;
      statusListeners := {};
      storedConnectionUrl := storedUrl;
      pendingReconnects := [];
      trace := [];
      outageStart := 0;
      new;
      if bufferedEvents.Some? {
        QueueOutboundEvents(bufferedEvents.value);
      } else {
        didClearBootEvents := true;
      }
      ghost var queued := trace;
      if plugins.Some? {
        AddPlugins(plugins.value);
      } else {
        assert trace == queued + [];
      }
    }

    /** Appends calls that are not once-per-outage notices to the trace. */
    ghost method Record(extra: seq<Effect>)
      requires Valid() && NoNotices(extra)
      modifies this`trace
      ensures Valid() && trace == old(trace) + extra
    {
      QuietAppend(trace, outageStart, extra);
      trace := trace + extra;
    }

    /** `queueOutboundEvent`: a null event is ignored; any other is offered to the
        outbound worker, whether or not the worker accepts it. */
    method QueueOutboundEvent(event: Option<AssuranceEvent>)
      requires Valid()
      modifies this`trace
      ensures Valid()
      ensures trace == old(trace) + (if event.Some? then [OutboundOffer(event.value)] else [])
    {
      if event.None? {
        assert trace == old(trace) + [];
        return;
      }
      Record([OutboundOffer(event.value)]);
    }

    /** Offers each event, in order. */
    method QueueOutboundEvents(events: seq<AssuranceEvent>)
      requires Valid()
      modifies this`trace
      ensures Valid()
      ensures trace == old(trace) + Offers(events)
    {
      var i := 0;
      while i < |events|
        invariant 0 <= i <= |events|
        invariant Valid()
        invariant trace == old(trace) + Offers(events[..i])
      {
        assert Offers(events[..i + 1]) == Offers(events[..i]) + [OutboundOffer(events[i])];
        QueueOutboundEvent(Some(events[i]));
        i := i + 1;
      }
      assert events[..i] == events;
    }

    /** `addPlugin`. */
    method AddPlugin(plugin: PluginRef)
      requires Valid()
      modifies this`trace
      ensures Valid() && trace == old(trace) + [PluginAdded(plugin)]
    {
      Record([PluginAdded(plugin)]);
    }

    /** Adds each plugin, in order. */
    method AddPlugins(plugins: seq<PluginRef>)
      requires Valid()
      modifies this`trace
      ensures Valid() && trace == old(trace) + PluginAdds(plugins)
    {
      var i := 0;
      while i < |plugins|
        invariant 0 <= i <= |plugins|
        invariant Valid()
        invariant trace == old(trace) + PluginAdds(plugins[..i])
      {
        assert PluginAdds(plugins[..i + 1]) == PluginAdds(plugins[..i]) + [PluginAdded(plugins[i])];
        AddPlugin(plugins[i]);
        i := i + 1;
      }
      assert plugins[..i] == plugins;
    }

    /** `initializeSession`: shows the PIN screen. */
    method InitializeSession()
      requires Valid()
      modifies this`trace
      ensures Valid() && trace == old(trace) + [PresentationInitialized]
    {
      Record([PresentationInitialized]);
    }

    /** `connect(pin)`, with the state manager's org id and client id as inputs. */
    method Connect(pin: Option<string>, stateOrgId: Option<string>, clientId: Option<string>)
      requires Valid()
      modifies this`trace
      ensures Valid()
      ensures trace == old(trace) + ConnectEffects(env, storedConnectionUrl, pin, stateOrgId, clientId)
    {
      if IsNullOrEmpty(pin) {
        InitializeSession();
        return;
      }
      Record([PresentationConnecting]);
      var orgId := stateOrgId;
      if IsNullOrEmpty(orgId) {
        var reconnectionUrl := storedConnectionUrl;
        if reconnectionUrl.None? {
          return;
        }
        orgId := env.queryParameter(reconnectionUrl.value, ORG_ID_KEY);
      }
      var connectionString := ConnectionUrl(env, pin.value, orgId, clientId);
      Record([SocketConnect(connectionString)]);
      assert trace == old(trace) + [PresentationConnecting, SocketConnect(connectionString)];
    }

    /** `clearSessionData`: stops both workers, marks the boot events as cleared, forgets
        the stored URL and clears the shared state. */
    method ClearSessionData()
      requires Valid()
      modifies this`trace, this`didClearBootEvents, this`storedConnectionUrl
      ensures Valid()
      ensures trace == old(trace) + CLEAR_EFFECTS
      ensures didClearBootEvents && storedConnectionUrl == None
    {
      // The workers stop, the flag and the stored URL are reset, and then the shared
      // state is cleared; only the collaborator calls are traced.
      didClearBootEvents := true;
      storedConnectionUrl := None;
      Record(CLEAR_EFFECTS);
    }

    /** `disconnect`: closes a socket that is not already closed, clears the session data
        and terminates the plugins. The status listeners are neither told nor removed. */
    method Disconnect(socketState: SocketReadyState)
      requires Valid()
      modifies this`trace, this`didClearBootEvents, this`storedConnectionUrl
      ensures Valid()
      ensures trace == old(trace) + (if socketState != Closed then [SocketDisconnect] else [])
                       + CLEAR_EFFECTS + [PluginsTerminated]
      ensures didClearBootEvents && storedConnectionUrl == None
    {
      ghost var closing := if socketState != Closed then [SocketDisconnect] else [];
      if socketState != Closed {
        Record([SocketDisconnect]);
      } else {
        assert trace == old(trace) + closing;
      }
      ClearSessionData();
      Record([PluginsTerminated]);
    }

    /** `onSocketConnected`: ends the outage, saves the socket's URL, starts the inbound
        worker, and re-sends the client info exactly when the outbound worker was already
        running (its `start()` returned false). */
    method OnSocketConnected(socketUrl: Option<string>, outboundStarted: bool)
      requires Valid()
      modifies this`isAttemptingToReconnect, this`storedConnectionUrl, this`trace, this`outageStart
      ensures Valid()
      ensures !isAttemptingToReconnect && storedConnectionUrl == socketUrl
      ensures trace == old(trace) + [InboundStart, OutboundStart]
                       + (if outboundStarted then [] else [OutboundSendClientInfo])
      ensures outageStart == |trace|
    {
      isAttemptingToReconnect := false;
      storedConnectionUrl := socketUrl;
      trace := trace + [InboundStart, OutboundStart];
      if !outboundStarted {
        trace := trace + [OutboundSendClientInfo];
      } else {
        assert trace == trace + [];
      }
      outageStart := |trace|;
      assert trace[outageStart..] == [];
    }

    /** `onSocketDataReceived`: a message that parses is offered to the inbound worker;
        one that does not is dropped. */
    method OnSocketDataReceived(parsed: Option<AssuranceEvent>)
      requires Valid()
      modifies this`trace
      ensures Valid()
      ensures trace == old(trace) + (if parsed.Some? then [InboundOffer(parsed.value)] else [])
    {
      if parsed.None? {
        assert trace == old(trace) + [];
        return;
      }
      Record([InboundOffer(parsed.value)]);
    }

    /** `notifyTerminationAndRemoveStatusListeners`: tells every listener, once each, that
        the session ended, and removes it; the set ends empty. */
    method NotifyTerminationAndRemoveStatusListeners() returns (ghost order: seq<Listener>)
      requires Valid()
      modifies this`trace, this`statusListeners
      ensures Valid()
      ensures Enumerates(order, old(statusListeners)) && statusListeners == {}
      ensures |order| == |old(statusListeners)|
      ensures trace == old(trace) + TerminatedAll(order)
    {
      order := [];
      while statusListeners != {}
        invariant Valid()
        invariant statusListeners <= old(statusListeners)
        invariant Enumerates(order, old(statusListeners) - statusListeners)
        invariant trace == old(trace) + TerminatedAll(order)
        decreases |statusListeners|
      {
        var listener :| listener in statusListeners;
        EnumerationStep(order, old(statusListeners), statusListeners, listener);
        assert TerminatedAll(order + [listener]) == TerminatedAll(order) + [ListenerTerminated(listener)];
        Record([ListenerTerminated(listener)]);
        statusListeners := statusListeners - {listener};
        order := order + [listener];
      }
      assert old(statusListeners) - {} == old(statusListeners);
      EnumerationLength(order, old(statusListeners));
    }

    /** `onSocketDisconnected(closeCode)`. A normal close or one of the five error codes
        clears the session data, tells the presentation, tells the plugins of the
        disconnect (error codes only) and of the termination, and then every listener,
        leaving none registered. Any other code blocks the outbound queue, tells the
        presentation, on the first close of an outage also shows "reconnecting" and tells
        the plugins, and posts a reconnect: at once the first time, after 5 s later on. */
    method OnSocketDisconnected(code: CloseCode) returns (ghost order: seq<Listener>)
      requires Valid()
      modifies this`trace, this`didClearBootEvents, this`storedConnectionUrl, this`statusListeners
      modifies this`isAttemptingToReconnect, this`pendingReconnects
      ensures Valid()
      ensures Classify(code) != Retryable ==>
        && trace == old(trace) + CLEAR_EFFECTS + TerminationEffects(code) + TerminatedAll(order)
        && Enumerates(order, old(statusListeners)) && statusListeners == {}
        && didClearBootEvents && storedConnectionUrl == None
        && isAttemptingToReconnect == old(isAttemptingToReconnect)
        && pendingReconnects == old(pendingReconnects)
      ensures Classify(code) == Retryable ==>
        && trace == old(trace) + AbnormalCloseEffects(old(isAttemptingToReconnect), code)
        && isAttemptingToReconnect
        && pendingReconnects == old(pendingReconnects) + [ReconnectDelay(old(isAttemptingToReconnect))]
        && statusListeners == old(statusListeners) && order == []
        && didClearBootEvents == old(didClearBootEvents) && storedConnectionUrl == old(storedConnectionUrl)
    {
      if Classify(code) == Retryable {
        order := [];
        ReconnectAfterAbnormalClose(code);
      } else {
        order := TerminateAfterClose(code);
      }
    }

    /** The normal and error branches of `onSocketDisconnected`. */
    method TerminateAfterClose(code: CloseCode) returns (ghost order: seq<Listener>)
      requires Valid() && Classify(code) != Retryable
      modifies this`trace, this`didClearBootEvents, this`storedConnectionUrl, this`statusListeners
      ensures Valid()
      ensures trace == old(trace) + CLEAR_EFFECTS + TerminationEffects(code) + TerminatedAll(order)
      ensures Enumerates(order, old(statusListeners)) && statusListeners == {}
      ensures didClearBootEvents && storedConnectionUrl == None
    {
      AnnounceTermination(code);
      ghost var announced := trace;
      order := NotifyTerminationAndRemoveStatusListeners();
      assert trace == announced + TerminatedAll(order);
    }

    /** Clears the session data, then tells the presentation and the plugins: of the
        disconnect on an error code only, and of the termination in both cases. */
    method AnnounceTermination(code: CloseCode)
      requires Valid() && Classify(code) != Retryable
      modifies this`trace, this`didClearBootEvents, this`storedConnectionUrl
      ensures Valid()
      ensures trace == old(trace) + CLEAR_EFFECTS + TerminationEffects(code)
      ensures didClearBootEvents && storedConnectionUrl == None
    {
      ClearSessionData();
      Record(TerminationEffects(code));
    }

    /** The default branch of `onSocketDisconnected`. */
    method ReconnectAfterAbnormalClose(code: CloseCode)
      requires Valid() && Classify(code) == Retryable
      modifies this`trace, this`isAttemptingToReconnect, this`pendingReconnects
      ensures Valid()
      ensures trace == old(trace) + AbnormalCloseEffects(old(isAttemptingToReconnect), code)
      ensures isAttemptingToReconnect
      ensures pendingReconnects == old(pendingReconnects) + [ReconnectDelay(old(isAttemptingToReconnect))]
    {
      ghost var t0 := trace;
      AbnormalCloseAdvances(t0, outageStart, isAttemptingToReconnect, code);
      trace := trace + [OutboundBlock, PresentationDisconnected(code)];
      var delayBeforeReconnect := if isAttemptingToReconnect then RECONNECT_DELAY else 0;
      if !isAttemptingToReconnect {
        isAttemptingToReconnect := true;
        trace := trace + [PresentationReconnecting, PluginsDisconnected(code)];
      }
      assert trace == t0 + AbnormalCloseEffects(old(isAttemptingToReconnect), code);
      pendingReconnects := pendingReconnects + [delayBeforeReconnect];
    }

    /** `attemptReconnect`, with the state manager's org id and client id as inputs. */
    method AttemptReconnect(stateOrgId: Option<string>, clientId: Option<string>)
      requires Valid()
      modifies this`trace
      ensures Valid()
      ensures trace == old(trace) + ReconnectEffects(env, storedConnectionUrl, stateOrgId, clientId)
    {
      var connectionUrl := storedConnectionUrl;
      if IsNullOrEmpty(connectionUrl) {
        InitializeSession();
        return;
      }
      var pin := env.queryParameter(connectionUrl.value, TOKEN_KEY);
      if IsNullOrEmpty(pin) {
        InitializeSession();
        return;
      }
      Connect(pin, stateOrgId, clientId);
    }

    /** The reconnect thread runs the `k`-th posted runnable. */
    method FireReconnect(k: nat, stateOrgId: Option<string>, clientId: Option<string>)
      requires Valid() && k < |pendingReconnects|
      modifies this`pendingReconnects, this`trace
      ensures Valid()
      ensures pendingReconnects == old(pendingReconnects)[..k] + old(pendingReconnects)[k + 1..]
      ensures trace == old(trace) + ReconnectEffects(env, storedConnectionUrl, stateOrgId, clientId)
    {
      pendingReconnects := pendingReconnects[..k] + pendingReconnects[k + 1..];
      assert forall i :: 0 <= i < |pendingReconnects| ==>
        pendingReconnects[i] == old(pendingReconnects)[if i < k then i else i + 1];
      AttemptReconnect(stateOrgId, clientId);
    }

    /** Tells every listener, once each, that the session is connected. */
    method NotifyConnected() returns (ghost order: seq<Listener>)
      requires Valid()
      modifies this`trace
      ensures Valid()
      ensures Enumerates(order, statusListeners)
      ensures trace == old(trace) + ConnectedAll(order)
    {
      order := [];
      var remaining := statusListeners;
      while remaining != {}
        invariant Valid()
        invariant remaining <= statusListeners
        invariant Enumerates(order, statusListeners - remaining)
        invariant trace == old(trace) + ConnectedAll(order)
        decreases |remaining|
      {
        var listener :| listener in remaining;
        EnumerationStep(order, statusListeners, remaining, listener);
        assert ConnectedAll(order + [listener]) == ConnectedAll(order) + [ListenerConnected(listener)];
        Record([ListenerConnected(listener)]);
        remaining := remaining - {listener};
        order := order + [listener];
      }
      assert statusListeners - {} == statusListeners;
    }

    /** `onStartForwardingEvent`: unblocks the outbound queue, tells the presentation and
        every listener that the session is connected, replays the extension states when
        the boot events were cleared, and then tells the plugins. */
    method OnStartForwardingEvent(stateEvents: seq<AssuranceEvent>) returns (ghost order: seq<Listener>)
      requires Valid()
      modifies this`trace
      ensures Valid()
      ensures Enumerates(order, statusListeners)
      ensures trace == old(trace) + [OutboundUnblock, PresentationConnected] + ConnectedAll(order)
                       + (if didClearBootEvents then Offers(stateEvents) else []) + [PluginsConnected]
    {
      Record([OutboundUnblock, PresentationConnected]);
      order := NotifyConnected();
      ghost var announced := trace;
      if didClearBootEvents {
        QueueOutboundEvents(stateEvents);
      } else {
        assert trace == announced + [];
      }
      Record([PluginsConnected]);
    }

    /** The inbound listener's `onInboundEvent`: the start-forwarding handshake is handled
        by the session and never reaches the plugins; every other event goes to them. */
    method OnInboundEvent(event: AssuranceEvent, stateEvents: seq<AssuranceEvent>) returns (ghost order: seq<Listener>)
      requires Valid()
      modifies this`trace
      ensures Valid()
      ensures event.controlType == Some(START_EVENT_FORWARDING) ==>
        && Enumerates(order, statusListeners)
        && trace == old(trace) + [OutboundUnblock, PresentationConnected] + ConnectedAll(order)
                    + (if didClearBootEvents then Offers(stateEvents) else []) + [PluginsConnected]
      ensures event.controlType != Some(START_EVENT_FORWARDING) ==>
        order == [] && trace == old(trace) + [PluginsEvent(event)]
    {
      if event.controlType == Some(START_EVENT_FORWARDING) {
        order := OnStartForwardingEvent(stateEvents);
        return;
      }
      order := [];
      Record([PluginsEvent(event)]);
    }

    /** `registerStatusListener`: a null listener is ignored. */
    method RegisterStatusListener(listener: Option<Listener>)
      modifies this`statusListeners
      ensures statusListeners == if listener.Some? then old(statusListeners) + {listener.value} else old(statusListeners)
    {
      if listener.Some? {
        statusListeners := statusListeners + {listener.value};
      }
    }

    /** `unregisterStatusListener`: a null listener is ignored. */
    method UnregisterStatusListener(listener: Option<Listener>)
      modifies this`statusListeners
      ensures statusListeners == if listener.Some? then old(statusListeners) - {listener.value} else old(statusListeners)
    {
      if listener.Some? {
        statusListeners := statusListeners - {listener.value};
      }
    }
  }

  /** Two abnormal closes in a row, each followed by its reconnect, from a stored URL
      whose parameters all read "1234": the queue is blocked and the socket opened twice, but
      "reconnecting" is shown, and the plugins told, only once. */
  method TwoAbnormalClosesScenario()
  {
    var stored := "stored";
    var query := (url: string, key: string) => Some("1234");
    var env := Env("SampleSessionID", "", query);
    var s := new AssuranceSession(env, Some(stored), Some([]), Some([]));
    assert s.trace == [];
    var org, client := Some("sampleOrgID"), Some("sampleClientID");
    var url := ConnectionUrl(env, "1234", org, client);
    assert !IsNullOrEmpty(Some(stored)) && !IsNullOrEmpty(Some("1234")) && !IsNullOrEmpty(org) by {
      assert stored[0] == 's' && "1234"[0] == '1' && org.value[0] == 's';
    }
    ghost var reconnect := [PresentationConnecting, SocketConnect(url)];
    assert ReconnectEffects(env, Some(stored), org, client) == reconnect;
    var _ := s.OnSocketDisconnected(Abnormal);
    assert s.pendingReconnects == [0];
    s.FireReconnect(0, org, client);
    ghost var firstOutage := [OutboundBlock, PresentationDisconnected(Abnormal), PresentationReconnecting, PluginsDisconnected(Abnormal)]
                             + reconnect;
    assert s.trace == firstOutage;
    var _ := s.OnSocketDisconnected(Abnormal);
    assert s.pendingReconnects == [RECONNECT_DELAY];
    s.FireReconnect(0, org, client);
    assert s.trace == firstOutage + [OutboundBlock, PresentationDisconnected(Abnormal)] + reconnect;
    assert s.outageStart == 0 && s.trace[0..] == s.trace;
    assert Count(s.trace, IsReconnectingNotice) == 1 && Count(s.trace, IsRetryDisconnect) == 1;
  }
}
