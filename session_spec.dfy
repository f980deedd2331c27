/** The values and effect sequences that `AssuranceSession` is specified by: the close
    codes and how they are classified, the collaborator calls a session makes, the
    connection URL, and the calls each decision produces. */
module SessionSpec {
  import opened Common

  // ---------------------------------------------------------------------------
  // Close codes

  /** `AssuranceConstants.SocketCloseCode`: the codes the session tells apart, and any
      other code (`Unlisted`). Their numeric values are not part of this model. */
  datatype CloseCode =
    | Normal
    | OrgMismatch
    | ClientError
    | ConnectionLimit
    | EventLimit
    | SessionDeleted
    | Abnormal
    | Unlisted(code: int)

  /** The three branches of the `switch (closeCode)` in `onSocketDisconnected`. */
  datatype CloseClass = NormalClosure | TerminalError | Retryable

  /** A normal close ends the session quietly, five known error codes end it with an
      error, and every other code starts (or continues) an attempt to reconnect. */
  function Classify(code: CloseCode): (r: CloseClass)
    ensures r == NormalClosure <==> code == CloseCode.Normal
    ensures r == TerminalError <==>
      code in {OrgMismatch, ClientError, ConnectionLimit, EventLimit, SessionDeleted}
    ensures r == Retryable <==> code == Abnormal || code.Unlisted?
  {
    match code
    case Normal => NormalClosure
    case OrgMismatch => TerminalError
    case ClientError => TerminalError
    case ConnectionLimit => TerminalError
    case EventLimit => TerminalError
    case SessionDeleted => TerminalError
    case _ => Retryable
  }

  // ---------------------------------------------------------------------------
  // Collaborators

  /** An `AssuranceSessionStatusListener` (never null once registered). */
  datatype Listener = Listener(id: nat)

  /** An `AssurancePlugin` handed to the plugin manager. */
  datatype PluginRef = PluginRef(id: nat)

  /** One call the session makes on a collaborator: the outbound and inbound queue
      workers, the socket, the state manager, the presentation manager, the plugin
      manager and the status listeners. */
  datatype Effect =
    | OutboundOffer(event: AssuranceEvent)
    | OutboundStart
    | OutboundStop
    | OutboundBlock
    | OutboundUnblock
    | OutboundSendClientInfo
    | InboundStart
    | InboundStop
    | InboundOffer(event: AssuranceEvent)
    | SocketConnect(url: string)
    | SocketDisconnect
    | ClearSharedState
    | PresentationInitialized
    | PresentationConnecting
    | PresentationConnected
    | PresentationDisconnected(code: CloseCode)
    | PresentationReconnecting
    | PluginAdded(plugin: PluginRef)
    | PluginsEvent(event: AssuranceEvent)
    | PluginsConnected
    | PluginsDisconnected(code: CloseCode)
    | PluginsTerminated
    | ListenerConnected(listener: Listener)
    | ListenerTerminated(listener: Listener)

  /** The "reconnecting" notice shown once per outage. */
  predicate IsReconnectingNotice(e: Effect) {
    e == PresentationReconnecting
  }

  /** `outboundEventQueueWorker.block()`. */
  predicate IsBlock(e: Effect) {
    e == OutboundBlock
  }

  /** `socket.connect(url)`. */
  predicate IsSocketConnect(e: Effect) {
    e.SocketConnect?
  }

  /** The plugin notice of an abnormal disconnect, also sent once per outage. */
  predicate IsRetryDisconnect(e: Effect) {
    e.PluginsDisconnected? && Classify(e.code) == Retryable
  }

  /** What the session is fixed with at construction: `sessionId`, the URL fragment of
      its environment (`AssuranceUtil.getURLFormatForEnvironment`; empty for
      production), and `Uri.parse(url).getQueryParameter(key)`, which is foreign code. */
  datatype Env = Env(sessionId: string, urlSuffix: string, queryParameter: (string, string) -> Option<string>)

  /** `SocketURLKeys.ORG_ID` and `DataStoreKeys.TOKEN`. */
  const ORG_ID_KEY: string := "orgId"
  const TOKEN_KEY: string := "token"

  /** `SOCKET_RECONNECT_TIME_DELAY`: five seconds, in milliseconds. */
  const RECONNECT_DELAY: nat := 5000

  // ---------------------------------------------------------------------------
  // connect

  /** `String.format(CONNECTION_URL_FORMAT, env, sessionId, pin, orgId, clientId)`. */
  function ConnectionUrl(env: Env, pin: string, orgId: Option<string>, clientId: Option<string>): string {
    "wss://connect" + env.urlSuffix + ".griffon.adobe.com/client/v1"
      + "?sessionId=" + env.sessionId + "&token=" + pin
      + "&orgId=" + FormatArg(orgId) + "&clientId=" + FormatArg(clientId)
  }

  /** The org id `connect` puts in the URL: the state's, unless that is null or empty,
      in which case the one in the stored connection URL (which may be null); no org id
      at all (`None`) when there is no stored URL to fall back on. */
  function ConnectOrgId(env: Env, stored: Option<string>, stateOrgId: Option<string>): (r: Option<Option<string>>)
    ensures !IsNullOrEmpty(stateOrgId) ==> r == Some(stateOrgId)
    ensures IsNullOrEmpty(stateOrgId) && stored.None? ==> r == None
    ensures IsNullOrEmpty(stateOrgId) && stored.Some? ==>
      r == Some(env.queryParameter(stored.value, ORG_ID_KEY))
  {
    if !IsNullOrEmpty(stateOrgId) then Some(stateOrgId)
    else if stored.None? then None
    else Some(env.queryParameter(stored.value, ORG_ID_KEY))
  }

  /** The calls `connect(pin)` makes. */
  function ConnectEffects(env: Env, stored: Option<string>, pin: Option<string>,
                          stateOrgId: Option<string>, clientId: Option<string>): (r: seq<Effect>)
    ensures IsNullOrEmpty(pin) ==> r == [PresentationInitialized]
    ensures !IsNullOrEmpty(pin) ==> |r| >= 1 && r[0] == PresentationConnecting
    ensures !IsNullOrEmpty(pin) && ConnectOrgId(env, stored, stateOrgId).None? ==> r == [PresentationConnecting]
    ensures !IsNullOrEmpty(pin) && ConnectOrgId(env, stored, stateOrgId).Some? ==>
      r == [PresentationConnecting,
            SocketConnect(ConnectionUrl(env, pin.value, ConnectOrgId(env, stored, stateOrgId).value, clientId))]
  {
    if IsNullOrEmpty(pin) then [PresentationInitialized]
    else
      var orgId := ConnectOrgId(env, stored, stateOrgId);
      if orgId.None? then [PresentationConnecting]
      else [PresentationConnecting, SocketConnect(ConnectionUrl(env, pin.value, orgId.value, clientId))]
  }

  /** `connect` opens the socket exactly when a pin is given and an org id, possibly
      null, is found; it then opens it exactly once. */
  lemma ConnectOpensSocketIff(env: Env, stored: Option<string>, pin: Option<string>,
                              stateOrgId: Option<string>, clientId: Option<string>)
    ensures var r := ConnectEffects(env, stored, pin, stateOrgId, clientId);
      (exists i :: 0 <= i < |r| && r[i].SocketConnect?) <==>
        !IsNullOrEmpty(pin) && (!IsNullOrEmpty(stateOrgId) || stored.Some?)
    ensures Count(ConnectEffects(env, stored, pin, stateOrgId, clientId), IsSocketConnect) <= 1
  {
    var r := ConnectEffects(env, stored, pin, stateOrgId, clientId);
    assert |r| <= 2;
    if |r| == 1 {
      CountSingleton(r[0], IsSocketConnect);
    } else {
      assert r == [r[0]] + [r[1]];
      CountAppend([r[0]], [r[1]], IsSocketConnect);
      CountSingleton(r[0], IsSocketConnect);
      CountSingleton(r[1], IsSocketConnect);
    }
  }

  // ---------------------------------------------------------------------------
  // attemptReconnect

  /** The calls `attemptReconnect` makes: without a stored URL, or with one whose token
      is null or empty, it shows the PIN screen; otherwise it connects with that token. */
  function ReconnectEffects(env: Env, stored: Option<string>, stateOrgId: Option<string>, clientId: Option<string>): (r: seq<Effect>)
    ensures IsNullOrEmpty(stored) ==> r == [PresentationInitialized]
    ensures !IsNullOrEmpty(stored) && IsNullOrEmpty(env.queryParameter(stored.value, TOKEN_KEY)) ==>
      r == [PresentationInitialized]
    ensures !IsNullOrEmpty(stored) && !IsNullOrEmpty(env.queryParameter(stored.value, TOKEN_KEY)) ==>
      r == ConnectEffects(env, stored, env.queryParameter(stored.value, TOKEN_KEY), stateOrgId, clientId)
  {
    if IsNullOrEmpty(stored) then [PresentationInitialized]
    else
      var pin := env.queryParameter(stored.value, TOKEN_KEY);
      if IsNullOrEmpty(pin) then [PresentationInitialized]
      else ConnectEffects(env, stored, pin, stateOrgId, clientId)
  }

  /** A reconnect from a stored URL never asks for a PIN and a missing token never opens
      the socket: the two outcomes exclude each other. */
  lemma ReconnectPromptsOrConnects(env: Env, stored: Option<string>, stateOrgId: Option<string>, clientId: Option<string>)
    ensures var r := ReconnectEffects(env, stored, stateOrgId, clientId);
      |r| >= 1 && (r[0] == PresentationInitialized <==>
                   IsNullOrEmpty(stored) || IsNullOrEmpty(env.queryParameter(stored.value, TOKEN_KEY)))
  {
  }

  // ---------------------------------------------------------------------------
  // onSocketDisconnected

  /** `clearSessionData`: both workers stop and the Assurance shared state is cleared. */
  const CLEAR_EFFECTS: seq<Effect> := [OutboundStop, InboundStop, ClearSharedState]

  /** The calls a normal or terminal close makes after clearing the session data and
      before telling the listeners: the plugins hear of the disconnect only on an error,
      and neither "reconnecting" nor a retryable disconnect is ever announced. */
  function TerminationEffects(code: CloseCode): (r: seq<Effect>)
    requires Classify(code) != Retryable
    ensures |r| >= 2 && r[0] == PresentationDisconnected(code) && r[|r| - 1] == PluginsTerminated
    ensures PluginsDisconnected(code) in r <==> Classify(code) == TerminalError
    ensures NoNotices(r)
  {
    if code == CloseCode.Normal then [PresentationDisconnected(code), PluginsTerminated]
    else [PresentationDisconnected(code), PluginsDisconnected(code), PluginsTerminated]
  }

  /** The delay before `attemptReconnect` runs: immediately on the first abnormal close
      of an outage, five seconds on every later one. */
  function ReconnectDelay(attempting: bool): (r: nat)
    ensures r == 0 <==> !attempting
    ensures r == 0 || r == RECONNECT_DELAY
  {
    if attempting then RECONNECT_DELAY else 0
  }

  /** The calls an abnormal close makes: block the outbound queue and tell the
      presentation, and, on the first close of an outage only, show "reconnecting" and
      tell the plugins. */
  function AbnormalCloseEffects(attempting: bool, code: CloseCode): (r: seq<Effect>)
    ensures |r| == if attempting then 2 else 4
    ensures r[..2] == [OutboundBlock, PresentationDisconnected(code)]
    ensures !attempting ==> r[2..] == [PresentationReconnecting, PluginsDisconnected(code)]
  {
    [OutboundBlock, PresentationDisconnected(code)]
      + (if attempting then [] else [PresentationReconnecting, PluginsDisconnected(code)])
  }

  /** How many calls of an abnormal close satisfy `p`. */
  lemma AbnormalCloseCount(attempting: bool, code: CloseCode, p: Effect -> bool)
    ensures Count(AbnormalCloseEffects(attempting, code), p) ==
      (if p(OutboundBlock) then 1 else 0) + (if p(PresentationDisconnected(code)) then 1 else 0)
      + (if attempting then 0
         else (if p(PresentationReconnecting) then 1 else 0) + (if p(PluginsDisconnected(code)) then 1 else 0))
  {
    var head := [OutboundBlock, PresentationDisconnected(code)];
    var tail := if attempting then [] else [PresentationReconnecting, PluginsDisconnected(code)];
    assert AbnormalCloseEffects(attempting, code) == head + tail;
    CountAppend(head, tail, p);
    CountTwo(OutboundBlock, PresentationDisconnected(code), p);
    if !attempting {
      CountTwo(PresentationReconnecting, PluginsDisconnected(code), p);
    }
  }

  /** An abnormal close adds one "reconnecting" notice and one plugin notice when it
      starts an outage and none during one, and blocks the outbound queue once. */
  lemma AbnormalCloseNotices(attempting: bool, code: CloseCode)
    requires Classify(code) == Retryable
    ensures Count(AbnormalCloseEffects(attempting, code), IsReconnectingNotice) == if attempting then 0 else 1
    ensures Count(AbnormalCloseEffects(attempting, code), IsRetryDisconnect) == if attempting then 0 else 1
    ensures Count(AbnormalCloseEffects(attempting, code), IsBlock) == 1
  {
    AbnormalCloseCount(attempting, code, IsReconnectingNotice);
    AbnormalCloseCount(attempting, code, IsRetryDisconnect);
    AbnormalCloseCount(attempting, code, IsBlock);
  }

  lemma CountTwo<T>(x: T, y: T, p: T -> bool)
    ensures Count([x, y], p) == (if p(x) then 1 else 0) + (if p(y) then 1 else 0)
  {
    assert [x, y] == [x] + [y];
    CountAppend([x], [y], p);
    CountSingleton(x, p);
    CountSingleton(y, p);
  }

  /** The calls and scheduled delays of a run of consecutive abnormal closes, starting
      with the reconnect flag at `attempting`. */
  function Outage(attempting: bool, codes: seq<CloseCode>): (r: (seq<Effect>, seq<nat>))
    ensures |r.1| == |codes|
    decreases |codes|
  {
    if codes == [] then ([], [])
    else
      var rest := Outage(true, codes[1..]);
      (AbnormalCloseEffects(attempting, codes[0]) + rest.0, [ReconnectDelay(attempting)] + rest.1)
  }

  /** However many abnormal closes follow each other, the queue is blocked once per close
      but "reconnecting" is shown, and the plugins are told, only once; the first
      reconnect is scheduled at once and every later one after five seconds. */
  lemma {:induction false} OutageNotifiesOnce(attempting: bool, codes: seq<CloseCode>)
    requires forall i :: 0 <= i < |codes| ==> Classify(codes[i]) == Retryable
    ensures Count(Outage(attempting, codes).0, IsReconnectingNotice) == if attempting || codes == [] then 0 else 1
    ensures Count(Outage(attempting, codes).0, IsRetryDisconnect) == if attempting || codes == [] then 0 else 1
    ensures Count(Outage(attempting, codes).0, IsBlock) == |codes|
    ensures forall i :: 0 <= i < |codes| ==>
      Outage(attempting, codes).1[i] == (if i == 0 && !attempting then 0 else RECONNECT_DELAY)
    decreases |codes|
  {
    if codes != [] {
      var head := AbnormalCloseEffects(attempting, codes[0]);
      var rest := Outage(true, codes[1..]);
      assert forall i :: 0 <= i < |codes[1..]| ==> codes[1..][i] == codes[i + 1];
      OutageNotifiesOnce(true, codes[1..]);
      AbnormalCloseNotices(attempting, codes[0]);
      CountAppend(head, rest.0, IsReconnectingNotice);
      CountAppend(head, rest.0, IsRetryDisconnect);
      CountAppend(head, rest.0, IsBlock);
      forall i | 0 <= i < |codes|
        ensures Outage(attempting, codes).1[i] == (if i == 0 && !attempting then 0 else RECONNECT_DELAY)
      {
        if i > 0 {
          assert Outage(attempting, codes).1[i] == rest.1[i - 1];
        }
      }
    }
  }

  // ---------------------------------------------------------------------------
  // Sequences of calls on a list of items

  /** `queueOutboundEvent` for each event, in list order. */
  function Offers(events: seq<AssuranceEvent>): (r: seq<Effect>)
    ensures |r| == |events|
    ensures forall i :: 0 <= i < |events| ==> r[i] == OutboundOffer(events[i])
  {
    seq(|events|, i requires 0 <= i < |events| => OutboundOffer(events[i]))
  }

  /** `addPlugin` for each plugin, in list order. */
  function PluginAdds(plugins: seq<PluginRef>): (r: seq<Effect>)
    ensures |r| == |plugins|
    ensures forall i :: 0 <= i < |plugins| ==> r[i] == PluginAdded(plugins[i])
  {
    seq(|plugins|, i requires 0 <= i < |plugins| => PluginAdded(plugins[i]))
  }

  /** `onSessionConnected` on each listener, in iteration order. */
  function ConnectedAll(order: seq<Listener>): (r: seq<Effect>)
    ensures |r| == |order|
    ensures forall i :: 0 <= i < |order| ==> r[i] == ListenerConnected(order[i])
  {
    seq(|order|, i requires 0 <= i < |order| => ListenerConnected(order[i]))
  }

  /** `onSessionTerminated` on each listener, in iteration order. */
  function TerminatedAll(order: seq<Listener>): (r: seq<Effect>)
    ensures |r| == |order|
    ensures forall i :: 0 <= i < |order| ==> r[i] == ListenerTerminated(order[i])
  {
    seq(|order|, i requires 0 <= i < |order| => ListenerTerminated(order[i]))
  }

  /** `order` lists every element of `s` exactly once. */
  ghost predicate Enumerates<T>(order: seq<T>, s: set<T>) {
    && (forall i :: 0 <= i < |order| ==> order[i] in s)
    && (forall x :: x in s ==> x in order)
    && (forall i, j :: 0 <= i < j < |order| ==> order[i] != order[j])
  }

  /** Taking one more element out of `remaining` extends the enumeration of what has
      already been taken. */
  lemma EnumerationStep<T>(order: seq<T>, all: set<T>, remaining: set<T>, x: T)
    requires remaining <= all && x in remaining
    requires Enumerates(order, all - remaining)
    ensures Enumerates(order + [x], all - (remaining - {x}))
  {
    var next := order + [x];
    forall y | y in all - (remaining - {x})
      ensures y in next
    {
      if y != x {
        assert y in order;
      }
    }
    assert next[|order|] == x;
  }

  /** An enumeration of a set has one entry per element. */
  lemma {:induction false} EnumerationLength<T>(order: seq<T>, s: set<T>)
    requires Enumerates(order, s)
    ensures |order| == |s|
    decreases |order|
  {
    if order != [] {
      var x := order[0];
      var rest := order[1..];
      assert forall i :: 0 <= i < |rest| ==> rest[i] == order[i + 1];
      assert Enumerates(rest, s - {x}) by {
        forall y | y in s - {x}
          ensures y in rest
        {
          var k :| 0 <= k < |order| && order[k] == y;
          assert k != 0;
          assert rest[k - 1] == y;
        }
      }
      EnumerationLength(rest, s - {x});
    } else {
      assert forall x :: x !in s;
      assert s == {};
    }
  }

  /** The for-each loop of `notifyTerminationAndRemoveStatusListeners` as written, run
      on a `HashSet` iterator over `order` (the set's iteration order). The iterator
      keeps the position of the next element and the modification count it expects;
      `hasNext()` is true while elements remain in `order`, and `next()` throws
      `ConcurrentModificationException` when the set's count differs from the expected
      one. Each step tells the listener and then unregisters it, which removes it from
      `live` and, when it was there, bumps the set's modification count. The result is
      the listener calls made and whether the loop threw. */
  function TeardownLoop(order: seq<Listener>, live: set<Listener>, pos: nat,
                        modCount: nat, expectedModCount: nat): (r: (seq<Effect>, bool))
    decreases |order| - pos
  {
    if pos >= |order| then ([], false)
    else if modCount != expectedModCount then ([], true)
    else
      var listener := order[pos];
      var bumped := if listener in live then modCount + 1 else modCount;
      var rest := TeardownLoop(order, live - {listener}, pos + 1, bumped, expectedModCount);
      ([ListenerTerminated(listener)] + rest.0, rest.1)
  }

  /** The loop as written, from a fresh iterator over the registered listeners. */
  function TeardownAsWritten(order: seq<Listener>, s: set<Listener>): (seq<Effect>, bool) {
    TeardownLoop(order, s, 0, 0, 0)
  }

  /** With two or more listeners registered, whatever order the set is walked in, the
      loop as written tells the first one, then throws, and never tells the others. */
  lemma TeardownAsWrittenMissesListener(order: seq<Listener>, s: set<Listener>)
    requires Enumerates(order, s) && |s| >= 2
    ensures TeardownAsWritten(order, s) == ([ListenerTerminated(order[0])], true)
    ensures exists x :: x in s && ListenerTerminated(x) !in TeardownAsWritten(order, s).0
  {
    EnumerationLength(order, s);
    assert order[0] in s;
    var rest := TeardownLoop(order, s - {order[0]}, 1, 1, 0);
    assert rest == ([], true);
    assert TeardownLoop(order, s, 0, 0, 0) == ([ListenerTerminated(order[0])] + rest.0, rest.1);
    assert [ListenerTerminated(order[0])] + rest.0 == [ListenerTerminated(order[0])];
    assert order[1] in s && order[1] != order[0];
    assert ListenerTerminated(order[1]) !in [ListenerTerminated(order[0])];
  }

  /** With at most one listener the loop as written does what was intended: every
      listener is told and nothing is thrown. */
  lemma TeardownAsWrittenSingle(order: seq<Listener>, s: set<Listener>)
    requires Enumerates(order, s) && |s| <= 1
    ensures TeardownAsWritten(order, s) == (TerminatedAll(order), false)
  {
    EnumerationLength(order, s);
    if |order| == 1 {
      assert order[0] in s;
      var rest := TeardownLoop(order, s - {order[0]}, 1, 1, 0);
      assert rest == ([], false);
      assert TeardownLoop(order, s, 0, 0, 0) == ([ListenerTerminated(order[0])] + rest.0, rest.1);
      assert [ListenerTerminated(order[0])] + rest.0 == [ListenerTerminated(order[0])];
      assert TerminatedAll(order) == [ListenerTerminated(order[0])];
    } else {
      assert TerminatedAll(order) == [];
    }
  }

  /** Steps that are none of the once-per-outage notices. */
  predicate NoNotices(extra: seq<Effect>) {
    forall i :: 0 <= i < |extra| ==> !IsReconnectingNotice(extra[i]) && !IsRetryDisconnect(extra[i])
  }

  /** Appending calls to a trace adds their notices to the count kept from `start`. */
  lemma NoticesAppend(t: seq<Effect>, start: nat, extra: seq<Effect>)
    requires start <= |t|
    ensures Count((t + extra)[start..], IsReconnectingNotice) == Count(t[start..], IsReconnectingNotice) + Count(extra, IsReconnectingNotice)
    ensures Count((t + extra)[start..], IsRetryDisconnect) == Count(t[start..], IsRetryDisconnect) + Count(extra, IsRetryDisconnect)
  {
    assert (t + extra)[start..] == t[start..] + extra;
    CountAppend(t[start..], extra, IsReconnectingNotice);
    CountAppend(t[start..], extra, IsRetryDisconnect);
  }

  /** An abnormal close adds one notice of each kind to the counts kept since the
      outage began when it opens the outage, and none during one. */
  lemma AbnormalCloseAdvances(t: seq<Effect>, start: nat, attempting: bool, code: CloseCode)
    requires start <= |t| && Classify(code) == Retryable
    ensures var t' := t + AbnormalCloseEffects(attempting, code);
      && Count(t'[start..], IsReconnectingNotice) == Count(t[start..], IsReconnectingNotice) + (if attempting then 0 else 1)
      && Count(t'[start..], IsRetryDisconnect) == Count(t[start..], IsRetryDisconnect) + (if attempting then 0 else 1)
  {
    NoticesAppend(t, start, AbnormalCloseEffects(attempting, code));
    AbnormalCloseNotices(attempting, code);
  }

  /** Appending calls without notices keeps both counts. */
  lemma QuietAppend(t: seq<Effect>, start: nat, extra: seq<Effect>)
    requires start <= |t| && NoNotices(extra)
    ensures Count((t + extra)[start..], IsReconnectingNotice) == Count(t[start..], IsReconnectingNotice)
    ensures Count((t + extra)[start..], IsRetryDisconnect) == Count(t[start..], IsRetryDisconnect)
  {
    NoticesAppend(t, start, extra);
    CountNone(extra, IsReconnectingNotice);
    CountNone(extra, IsRetryDisconnect);
  }
}
