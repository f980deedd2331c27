# Assurance session and log forwarding, modelled in Dafny

This project models the core of the Adobe Experience Platform Assurance SDK for Android.
It covers five parts.

- **`AssuranceSession`** is one connection to an Assurance session.
  - It connects the web socket from a PIN or from a stored connection URL.
  - It queues outbound events and hands inbound events to the plugins.
  - It handles the start-forwarding handshake.
  - It classifies close codes: a normal close and five error codes end the session; every other code starts or continues an outage.
  - It reconnects, and during an outage it shows "reconnecting" once.
  - It tells its status listeners when the session connects and when it terminates.
- **The log-forwarding buffer**, kept both by `Debugger` and by the `Logging` implementation that `Assurance.queueLogsWithMetaData` installs.
  - The SDK's own entries (the tag contains "Assurance") are dropped.
  - Every other entry is enriched with the thread name and a timestamp.
  - While no handler is registered, entries are cached in arrival order.
  - The first accepted entry that finds a handler flushes the cache to it, then delivers itself.
- **`Assurance.startSession`**, which accepts only a deep link carrying `adb_validation_sessionid`.
- **`AssurancePluginLogForwarder`**, the "logForwarding" control plugin.
- **`AssurancePluginDebugger`**, the "sdkDebugger" control plugin, with its command handling.

Both sessions and buffers keep their state in classes, as the source does:

- Methods are specified against pure functions: `ForwardStep`, `ConnectEffects`, `ReconnectEffects`, `TerminationEffects`, `AbnormalCloseEffects`, `CommandResponse` and `EventAction`.
- The properties of those functions are proved as lemmas.
- Class invariants are kept by every method.
  - The buffer conserves entries: delivered entries followed by cached entries are exactly the accepted entries, in order.
  - The session sends each once-per-outage notice exactly once: the reconnect flag is set exactly when "reconnecting" and the plugin disconnect notice have each been sent once since the last successful connection.

Every call the session makes on a collaborator is recorded, in order, in a ghost trace of `Effect`s. Collaborators include the event queue workers, the socket, the presentation, the plugin manager, the status listeners and the shared state.

Modules, one per file:

- `Common` (common.dfy): values, events, substring search and counting.
- `LogForwarding` (log_forwarding.dfy): the buffer as functions.
- `DebuggerLog` (debugger.dfy): `Debugger`.
- `AssuranceApi` (assurance.dfy): `Assurance`.
- `PluginSupport` (plugin_support.dfy): what the two plugins share.
- `LogForwarderPlugin` (log_forwarder_plugin.dfy).
- `DebuggerPlugin` (debugger_plugin.dfy).
- `SessionSpec` (session_spec.dfy): the session's specification functions.
- `Session` (session.dfy): `AssuranceSession`.

Where the file holds a merge conflict, this model follows the `main` side.

## Model

| member | source | states |
|---|---|---|
| Common.FormatArg | code/assurance/src/main/java/com/adobe/marketing/mobile/assurance/AssuranceSession.java:279-289 | `%s` writes a String as itself and a null reference as "null" |
| Common.ContainsIffOccurs | code/assurance/src/main/java/com/adobe/marketing/mobile/Assurance.java:83 | the substring test used for `String.contains` holds exactly when the key occurs at some index |
| AssuranceApi.StartSession | code/assurance/src/main/java/com/adobe/marketing/mobile/Assurance.java:81-97 | an event is dispatched if and only if the URL contains the deep-link session key; the event is the "Assurance Start Session" request (type Assurance, source request content) whose only data is the URL under "startSessionURL" |
| AssuranceApi.StartSessionAcceptsDeepLink | code/assurance/src/main/java/com/adobe/marketing/mobile/Assurance.java:83-96 | any URL containing the key starts a session carrying exactly that URL |
| AssuranceApi.Assurance.constructor | code/assurance/src/main/java/com/adobe/marketing/mobile/Assurance.java:99 | the shared handler reference starts out empty: no handler is registered |
| AssuranceApi.ForwardingLogger.constructor | code/assurance/src/main/java/com/adobe/marketing/mobile/Assurance.java:106-108 | the logger is bound to the given `Assurance` handler slot, its own cache starts empty, nothing has been accepted or delivered, and conservation holds |
| AssuranceApi.Assurance.RegisterLogForwardingHandler | code/assurance/src/main/java/com/adobe/marketing/mobile/Assurance.java:99-103 | the shared handler is replaced and nothing else changes |
| AssuranceApi.Assurance.QueueLogsWithMetaData | code/assurance/src/main/java/com/adobe/marketing/mobile/Assurance.java:105-108 | a new logger with an empty cache of its own, reading this handler slot |
| AssuranceApi.ForwardingLogger.ForwardLogData | code/assurance/src/main/java/com/adobe/marketing/mobile/Assurance.java:175-196 | cache and deliveries as `ForwardStep` gives them for the shared handler; the accepted stream grows by `Accepted`; conservation is kept |
| AssuranceApi.ForwardingLogger.FlushTo | code/assurance/src/main/java/com/adobe/marketing/mobile/Assurance.java:186-191 | every cached entry is delivered in order and the cache ends empty |
| AssuranceApi.ForwardingLogger.LogWithMetaData | code/assurance/src/main/java/com/adobe/marketing/mobile/Assurance.java:116-173 | builds {tag, message, level, metaData} and forwards it as `ForwardLogData` does |
| AssuranceApi.ForwardingLogger.Log | code/assurance/src/main/java/com/adobe/marketing/mobile/Assurance.java:111-161 | the two-argument level methods forward the entry with an empty metaData map |
| LogForwarding.LevelName | code/assurance/src/main/java/com/adobe/marketing/mobile/assurance/Debugger.java:60-109 | each level is named "trace", "debug", "warning" or "error" |
| LogForwarding.LevelNameInjective | code/assurance/src/main/java/com/adobe/marketing/mobile/assurance/Debugger.java:60-109 | distinct levels get distinct names |
| LogForwarding.LogData | code/assurance/src/main/java/com/adobe/marketing/mobile/assurance/Debugger.java:55-63 | the entry has exactly the keys tag, message, level, metaData with the given values |
| LogForwarding.Enrich | code/assurance/src/main/java/com/adobe/marketing/mobile/assurance/Debugger.java:26-30 | adds extension and threadName (the thread name) and timestamp (the clock); every other key is unchanged |
| LogForwarding.Accepted | code/assurance/src/main/java/com/adobe/marketing/mobile/assurance/Debugger.java:23-30 | an entry whose tag contains "Assurance" is dropped; any other is accepted enriched |
| LogForwarding.ForwardStepCases | code/assurance/src/main/java/com/adobe/marketing/mobile/assurance/Debugger.java:22-43 | dropped: nothing changes; no handler: appended to the cache; handler: old cache delivered in order, then the entry, and the cache ends empty |
| LogForwarding.ForwardStepConserves | code/assurance/src/main/java/com/adobe/marketing/mobile/assurance/Debugger.java:31-42 | one call loses, duplicates and reorders nothing |
| LogForwarding.RunConserves | code/assurance/src/main/java/com/adobe/marketing/mobile/assurance/Debugger.java:20-43 | over any run of calls, delivered entries followed by the final cache are the initial cache followed by every accepted entry, in arrival order |
| LogForwarding.RunEndsFlushed | code/assurance/src/main/java/com/adobe/marketing/mobile/assurance/Debugger.java:31-38 | a run whose last call is accepted while a handler is registered leaves the cache empty |
| DebuggerLog.Debugger.constructor | code/assurance/src/main/java/com/adobe/marketing/mobile/assurance/Debugger.java:14-20 | no handler and an empty cache |
| DebuggerLog.Debugger.RegisterLogForwardingHandler | code/assurance/src/main/java/com/adobe/marketing/mobile/assurance/Debugger.java:16-18 | replaces the handler; the cache is left as it is |
| DebuggerLog.Debugger.ForwardLogData | code/assurance/src/main/java/com/adobe/marketing/mobile/assurance/Debugger.java:22-43 | cache and deliveries as `ForwardStep` gives them; the accepted stream grows by `Accepted`; conservation is kept |
| DebuggerLog.Debugger.FlushTo | code/assurance/src/main/java/com/adobe/marketing/mobile/assurance/Debugger.java:33-38 | every cached entry is delivered in order and the cache ends empty |
| DebuggerLog.Debugger.LogWithMetaData | code/assurance/src/main/java/com/adobe/marketing/mobile/assurance/Debugger.java:55-112 | builds {tag, message, level, metaData} and forwards it |
| DebuggerLog.Debugger.Log | code/assurance/src/main/java/com/adobe/marketing/mobile/assurance/Debugger.java:50-100 | the two-argument level methods forward the entry with an empty metaData map |
| PluginSupport.RequestedSwitch | code/assurance/src/main/java/com/adobe/marketing/mobile/assurance/AssurancePluginLogForwarder.java:59-75 | a switch is requested if and only if the detail is neither null nor empty and holds a Boolean under the key; the request is that Boolean |
| PluginSupport.SwitchNotice | code/assurance/src/main/java/com/adobe/marketing/mobile/assurance/AssurancePluginLogForwarder.java:77-90 | one HIGH start/stop notice on the parent session, and nothing if and only if there is no parent session |
| LogForwarderPlugin.Vendor | code/assurance/src/main/java/com/adobe/marketing/mobile/assurance/AssurancePluginLogForwarder.java:46-48 | the mobile vendor |
| LogForwarderPlugin.ControlType | code/assurance/src/main/java/com/adobe/marketing/mobile/assurance/AssurancePluginLogForwarder.java:51-53 | "logForwarding", which is not the start-forwarding handshake |
| LogForwarderPlugin.AssurancePluginLogForwarder.constructor | code/assurance/src/main/java/com/adobe/marketing/mobile/assurance/AssurancePluginLogForwarder.java:35-39 | forwarding off, no parent session |
| LogForwarderPlugin.AssurancePluginLogForwarder.OnEventReceived | code/assurance/src/main/java/com/adobe/marketing/mobile/assurance/AssurancePluginLogForwarder.java:59-92 | an invalid request changes nothing; a valid one sets the flag and writes the notice; switching on registers a handler bound to the parent session; switching off keeps the old handler |
| LogForwarderPlugin.AssurancePluginLogForwarder.OnRegistered | code/assurance/src/main/java/com/adobe/marketing/mobile/assurance/AssurancePluginLogForwarder.java:95-98 | remembers the parent session |
| LogForwarderPlugin.AssurancePluginLogForwarder.OnSessionDisconnected | code/assurance/src/main/java/com/adobe/marketing/mobile/assurance/AssurancePluginLogForwarder.java:104-106 | forwarding off; the handler stays |
| LogForwarderPlugin.AssurancePluginLogForwarder.OnSessionTerminated | code/assurance/src/main/java/com/adobe/marketing/mobile/assurance/AssurancePluginLogForwarder.java:109-111 | forgets the parent session |
| DebuggerPlugin.Vendor | code/assurance/src/main/java/com/adobe/marketing/mobile/assurance/AssurancePluginDebugger.java:24-26 | the mobile vendor |
| DebuggerPlugin.ControlType | code/assurance/src/main/java/com/adobe/marketing/mobile/assurance/AssurancePluginDebugger.java:29-31 | "sdkDebugger", distinct from the log forwarder's and the handshake's control types |
| DebuggerPlugin.DecimalText | code/assurance/src/main/java/com/adobe/marketing/mobile/assurance/AssurancePluginDebugger.java:34 | the decimal rendering of a number is non-empty and made of digits only |
| DebuggerPlugin.ValueText | code/assurance/src/main/java/com/adobe/marketing/mobile/assurance/AssurancePluginDebugger.java:34 | `toString` of a payload value fails exactly on null |
| DebuggerPlugin.EventSubType | code/assurance/src/main/java/com/adobe/marketing/mobile/assurance/AssurancePluginDebugger.java:33-46 | 0 if and only if the sub-type is the String "loadTrigger"; 1 if and only if it is "command"; otherwise -1; the null-pointer failure if and only if it is present and null |
| DebuggerPlugin.CommandResponse | code/assurance/src/main/java/com/adobe/marketing/mobile/assurance/AssurancePluginDebugger.java:71-113 | an empty command is ignored; a debug event is sent if and only if the command is "pause" or "resume"; "prefs" forwards the preferences; anything else forwards the invalid-command reply |
| DebuggerPlugin.DebugEvent | code/assurance/src/main/java/com/adobe/marketing/mobile/assurance/AssurancePluginDebugger.java:80-99 | the "Debug Event" of type "debug" and source "assurance" carrying only the action |
| DebuggerPlugin.CommandEntry | code/assurance/src/main/java/com/adobe/marketing/mobile/assurance/AssurancePluginDebugger.java:105-112 | the "CMD" entry with the timestamp, the result and an empty metaData map |
| DebuggerPlugin.CommandEntryAccepted | code/assurance/src/main/java/com/adobe/marketing/mobile/assurance/AssurancePluginDebugger.java:105-112 | a command reply is never dropped by the "Assurance" tag filter |
| DebuggerPlugin.EventAction | code/assurance/src/main/java/com/adobe/marketing/mobile/assurance/AssurancePluginDebugger.java:116-161 | no detail: ignored; otherwise a null sub-type throws; a command sub-type runs the rendered "args", or throws when "args" is absent or null; any other sub-type switches to the Boolean under "started", or is ignored when there is none |
| DebuggerPlugin.CommandEventNeverSwitches | code/assurance/src/main/java/com/adobe/marketing/mobile/assurance/AssurancePluginDebugger.java:127-140 | a command event never flips the forwarding switch |
| DebuggerPlugin.AssurancePluginDebugger.constructor | code/assurance/src/main/java/com/adobe/marketing/mobile/assurance/AssurancePluginDebugger.java:19-21 | forwarding off, no parent session, nothing dispatched |
| DebuggerPlugin.AssurancePluginDebugger.HandleCommand | code/assurance/src/main/java/com/adobe/marketing/mobile/assurance/AssurancePluginDebugger.java:71-113 | dispatches exactly the debug event `CommandResponse` calls for; a forwarded reply goes through the `Debugger` buffer as `ForwardStep` gives it, otherwise the buffer is unchanged |
| DebuggerPlugin.AssurancePluginDebugger.OnEventReceived | code/assurance/src/main/java/com/adobe/marketing/mobile/assurance/AssurancePluginDebugger.java:116-161 | throws if and only if `EventAction` is the null-pointer case; a command dispatches what `CommandResponse` calls for and sends its reply through the `Debugger` buffer as `ForwardStep` gives it; only a switch changes the flag, the notice and (when on) the `Debugger` handler; nothing else changes |
| DebuggerPlugin.AssurancePluginDebugger.OnRegistered | code/assurance/src/main/java/com/adobe/marketing/mobile/assurance/AssurancePluginDebugger.java:164-166 | remembers the parent session |
| DebuggerPlugin.AssurancePluginDebugger.OnSessionDisconnected | code/assurance/src/main/java/com/adobe/marketing/mobile/assurance/AssurancePluginDebugger.java:174-176 | forwarding off |
| DebuggerPlugin.AssurancePluginDebugger.OnSessionTerminated | code/assurance/src/main/java/com/adobe/marketing/mobile/assurance/AssurancePluginDebugger.java:179-181 | forgets the parent session |
| SessionSpec.Classify | code/assurance/src/main/java/com/adobe/marketing/mobile/assurance/AssuranceSession.java:530-617 | normal closure if and only if NORMAL; terminal if and only if one of the five error codes; retryable if and only if any other code |
| SessionSpec.ConnectOrgId | code/assurance/src/main/java/com/adobe/marketing/mobile/assurance/AssuranceSession.java:262-278 | the state's org id unless null or empty; otherwise the stored URL's orgId parameter; none, and no connection, without a stored URL |
| SessionSpec.ConnectEffects | code/assurance/src/main/java/com/adobe/marketing/mobile/assurance/AssuranceSession.java:230-290 | no PIN: the PIN screen; otherwise "connecting", then the socket connects to the formatted URL unless no org id is found |
| SessionSpec.ConnectOpensSocketIff | code/assurance/src/main/java/com/adobe/marketing/mobile/assurance/AssuranceSession.java:230-290 | the socket is opened if and only if there is a PIN and an org id source, and at most once |
| SessionSpec.ReconnectEffects | code/assurance/src/main/java/com/adobe/marketing/mobile/assurance/AssuranceSession.java:733-783 | no stored URL or no token in it: the PIN screen; otherwise `connect` with the stored token |
| SessionSpec.ReconnectPromptsOrConnects | code/assurance/src/main/java/com/adobe/marketing/mobile/assurance/AssuranceSession.java:733-783 | a reconnect asks for a PIN if and only if the stored URL or its token is missing |
| SessionSpec.TerminationEffects | code/assurance/src/main/java/com/adobe/marketing/mobile/assurance/AssuranceSession.java:531-554 | presentation first, plugin termination last; the plugins hear of the disconnect if and only if the code is an error code |
| SessionSpec.ReconnectDelay | code/assurance/src/main/java/com/adobe/marketing/mobile/assurance/AssuranceSession.java:574-575 | no delay if and only if no outage is in progress; otherwise five seconds |
| SessionSpec.AbnormalCloseEffects | code/assurance/src/main/java/com/adobe/marketing/mobile/assurance/AssuranceSession.java:556-615 | block the queue and tell the presentation; on the first close of an outage only, also show "reconnecting" and tell the plugins |
| SessionSpec.AbnormalCloseCount | code/assurance/src/main/java/com/adobe/marketing/mobile/assurance/AssuranceSession.java:556-615 | how many calls of an abnormal close satisfy any predicate |
| SessionSpec.AbnormalCloseNotices | code/assurance/src/main/java/com/adobe/marketing/mobile/assurance/AssuranceSession.java:584-587 | one notice of each kind when an outage starts, none during one, one queue block per close |
| SessionSpec.Outage | code/assurance/src/main/java/com/adobe/marketing/mobile/assurance/AssuranceSession.java:556-615 | one scheduled reconnect per close |
| SessionSpec.OutageNotifiesOnce | code/assurance/src/main/java/com/adobe/marketing/mobile/assurance/AssuranceSession.java:556-615 | over any run of abnormal closes: the queue is blocked once per close; "reconnecting" and the plugin notice are sent once; the first reconnect is immediate and every later one waits five seconds |
| SessionSpec.Offers | code/assurance/src/main/java/com/adobe/marketing/mobile/assurance/AssuranceSession.java:200-209 | one outbound offer per event, in list order |
| SessionSpec.PluginAdds | code/assurance/src/main/java/com/adobe/marketing/mobile/assurance/AssuranceSession.java:211-216 | one plugin registration per plugin, in list order |
| SessionSpec.ConnectedAll | code/assurance/src/main/java/com/adobe/marketing/mobile/assurance/AssuranceSession.java:809-813 | one connected call per listener, in iteration order |
| SessionSpec.TerminatedAll | code/assurance/src/main/java/com/adobe/marketing/mobile/assurance/AssuranceSession.java:848-855 | one terminated call per listener, in iteration order |
| SessionSpec.EnumerationLength | code/assurance/src/main/java/com/adobe/marketing/mobile/assurance/AssuranceSession.java:848-855 | a walk over the set visits as many listeners as the set holds |
| SessionSpec.TeardownAsWrittenMissesListener | code/assurance/src/main/java/com/adobe/marketing/mobile/assurance/AssuranceSession.java:848-855 | the loop as written, run on a model of the fail-fast `HashSet` iterator: with two or more listeners it tells the first, throws, and leaves the others untold |
| SessionSpec.TeardownAsWrittenSingle | code/assurance/src/main/java/com/adobe/marketing/mobile/assurance/AssuranceSession.java:848-855 | with at most one listener the loop as written tells every listener and does not throw |
| SessionSpec.AbnormalCloseAdvances | code/assurance/src/main/java/com/adobe/marketing/mobile/assurance/AssuranceSession.java:556-587 | an abnormal close adds one notice of each kind to the counts since the outage began when it opens the outage, and none during one |
| Session.AssuranceSession.constructor | code/assurance/src/main/java/com/adobe/marketing/mobile/assurance/AssuranceSession.java:151-217 | the buffered events are queued in order and the boot events count as cleared if and only if there were none; the plugins are then added in order; no outage, no listeners, nothing pending |
| Session.AssuranceSession.QueueOutboundEvent | code/assurance/src/main/java/com/adobe/marketing/mobile/assurance/AssuranceSession.java:310-333 | a null event is ignored; any other is offered to the outbound worker |
| Session.AssuranceSession.QueueOutboundEvents | code/assurance/src/main/java/com/adobe/marketing/mobile/assurance/AssuranceSession.java:200-209 | every event is offered, in order |
| Session.AssuranceSession.AddPlugin | code/assurance/src/main/java/com/adobe/marketing/mobile/assurance/AssuranceSession.java:335-337 | the plugin is handed to the plugin manager |
| Session.AssuranceSession.AddPlugins | code/assurance/src/main/java/com/adobe/marketing/mobile/assurance/AssuranceSession.java:211-216 | every plugin is added, in order |
| Session.AssuranceSession.InitializeSession | code/assurance/src/main/java/com/adobe/marketing/mobile/assurance/AssuranceSession.java:722-724 | shows the PIN screen |
| Session.AssuranceSession.Connect | code/assurance/src/main/java/com/adobe/marketing/mobile/assurance/AssuranceSession.java:230-290 | makes exactly the calls of `ConnectEffects` |
| Session.AssuranceSession.ClearSessionData | code/assurance/src/main/java/com/adobe/marketing/mobile/assurance/AssuranceSession.java:866-873 | stops both workers, clears the shared state, marks the boot events cleared and forgets the stored URL |
| Session.AssuranceSession.Disconnect | code/assurance/src/main/java/com/adobe/marketing/mobile/assurance/AssuranceSession.java:295-303 | closes a socket that is not closed, clears the session data and terminates the plugins; the listeners are neither told nor removed |
| Session.AssuranceSession.OnSocketConnected | code/assurance/src/main/java/com/adobe/marketing/mobile/assurance/AssuranceSession.java:392-417 | ends the outage, saves the socket's URL, starts both workers, and re-sends the client info if and only if the outbound worker was already running |
| Session.AssuranceSession.OnSocketDataReceived | code/assurance/src/main/java/com/adobe/marketing/mobile/assurance/AssuranceSession.java:458-517 | a message that parses is offered inbound; one that does not is dropped |
| Session.AssuranceSession.NotifyTerminationAndRemoveStatusListeners | code/assurance/src/main/java/com/adobe/marketing/mobile/assurance/AssuranceSession.java:848-855 | every registered listener is told once, in some order, and the set ends empty (the intended behaviour; see Findings) |
| Session.AssuranceSession.OnSocketDisconnected | code/assurance/src/main/java/com/adobe/marketing/mobile/assurance/AssuranceSession.java:524-617 | normal and error codes: clear, `TerminationEffects`, every listener told and removed, reconnect state unchanged; any other code: `AbnormalCloseEffects`, the flag set, one reconnect posted with `ReconnectDelay`, listeners and stored URL unchanged |
| Session.AssuranceSession.TerminateAfterClose | code/assurance/src/main/java/com/adobe/marketing/mobile/assurance/AssuranceSession.java:531-554 | clear, `TerminationEffects`, then every listener told and removed |
| Session.AssuranceSession.AnnounceTermination | code/assurance/src/main/java/com/adobe/marketing/mobile/assurance/AssuranceSession.java:531-554 | the session data is cleared, then the presentation and the plugins are told, as `TerminationEffects` gives it; the stored URL is forgotten |
| Session.AssuranceSession.ReconnectAfterAbnormalClose | code/assurance/src/main/java/com/adobe/marketing/mobile/assurance/AssuranceSession.java:556-615 | `AbnormalCloseEffects` for the old flag, the flag set, one reconnect posted with `ReconnectDelay` |
| Session.AssuranceSession.AttemptReconnect | code/assurance/src/main/java/com/adobe/marketing/mobile/assurance/AssuranceSession.java:733-783 | makes exactly the calls of `ReconnectEffects` |
| Session.AssuranceSession.FireReconnect | code/assurance/src/main/java/com/adobe/marketing/mobile/assurance/AssuranceSession.java:606-614 | a posted reconnect runs once, is removed from the pending list, and makes the calls of `ReconnectEffects` |
| Session.AssuranceSession.NotifyConnected | code/assurance/src/main/java/com/adobe/marketing/mobile/assurance/AssuranceSession.java:809-813 | every registered listener is told once that the session is connected |
| Session.AssuranceSession.OnStartForwardingEvent | code/assurance/src/main/java/com/adobe/marketing/mobile/assurance/AssuranceSession.java:805-834 | unblock, "connected", every listener, the state events replayed if and only if the boot events were cleared, then the plugins |
| Session.AssuranceSession.OnInboundEvent | code/assurance/src/main/java/com/adobe/marketing/mobile/assurance/AssuranceSession.java:93-109 | the start-forwarding handshake is handled by the session and never reaches the plugins; every other event goes only to them |
| Session.AssuranceSession.RegisterStatusListener | code/assurance/src/main/java/com/adobe/marketing/mobile/assurance/AssuranceSession.java:697-701 | a non-null listener is added; null is ignored |
| Session.AssuranceSession.UnregisterStatusListener | code/assurance/src/main/java/com/adobe/marketing/mobile/assurance/AssuranceSession.java:709-713 | a non-null listener is removed; null is ignored |

## Left out

- Threads, handlers and timers. The reconnect thread is a list of posted delays; `FireReconnect` runs one of them. Races between threads are not modelled.
- `socketReconnectThread.quit()` in `clearSessionData` is not modelled, so a reconnect posted before a termination stays pending.
- Logging to `android.util.Log` and to `com.adobe.marketing.mobile.Log` is not modelled.
- `MobileCore.dispatchEvent` is recorded as a ghost list of dispatched events. `ServiceProvider.setLoggingService` is left out.
- The event queue workers, the socket, the presentation manager, the plugin manager and the state manager are opaque. Their calls are recorded as `Effect`s. What they return is passed in: whether the outbound worker started, the socket's URL and ready state, the state's org id and client id.
- `StringUtils.isNullOrEmpty` is defined in Mobile Core, outside this repository. Common.IsNullOrEmpty follows Mobile Core's definition, `str == null || str.trim().isEmpty()`. So a pin, org id, stored URL or token made only of blanks counts as missing in ConnectOrgId, ConnectEffects and ReconnectEffects.
- `Uri.parse(url).getQueryParameter(key)` is an abstract function of the session's environment.
- `AssuranceUtil.getURLFormatForEnvironment` is the environment's URL suffix.
- JSON parsing of inbound messages is an `Option` (a parse failure is `None`).
- The `HEAD` side of the merge conflicts in `AssuranceSession` is left out, among it `handleDebugEvent`. So are the presentation and activity delegation methods of the session.
- `HEADER_MESSAGE`, `backgroundThreadRunning` and `isBackgroundThreadRunning` in `AssurancePluginLogForwarder` are never used by the plugin's own logic, and are left out.
- The log handler's own work is left out: wrapping the entry in a "log" event and queueing it on the captured session. A handler is identified by the session it captured, and a delivery is a `Delivery` record.
- `retrieveSharedPreferences()` reads the application's preference files; its result is the `prefs` parameter.
- DebuggerPlugin.ValueText: renders a nested map as "{...}". `HashMap.toString` depends on an iteration order Java leaves open.
- The static `HANDLER` and `cachedLogs` of `Debugger` and `Assurance` are the fields of one object standing for each class's static state.
- DebuggerLog.Debugger.ForwardLogData: requires the entry to have a String tag. The source calls `toString()` on the tag, so an entry whose tag is null throws `NullPointerException`; that error path is not modelled.
- AssuranceApi.ForwardingLogger.ForwardLogData: the same String-tag requirement and the same unmodelled `NullPointerException` on a null tag.
- DebuggerLog.Debugger.Log, DebuggerLog.Debugger.LogWithMetaData, AssuranceApi.ForwardingLogger.Log, AssuranceApi.ForwardingLogger.LogWithMetaData: the tag is a non-null string. A level method called with a null tag builds an entry whose tag is null, and its `forwardLogData` then throws; the model does not capture that call.
- AssuranceApi.StartSession: the URL is a non-null string. `startSession(null)` throws `NullPointerException` at `url.contains`; the model does not capture that call.
- Session.AssuranceSession.constructor, Session.AssuranceSession.OnStartForwardingEvent, DebuggerPlugin.ValueText: two kinds of value cannot be expressed, and the core does not depend on either. First, the buffered events and the state events are sequences of `AssuranceEvent`, so they hold no null elements. `queueOutboundEvent` skips null elements (AssuranceSession.java:310-333), and such elements could reach it from the constructor (200-209) and from the state replay (826-828). Second, `Value` has no JSON array or floating-point case, so the `toString` of such a value is not modelled where it reaches the event sub-type or "args".
- The numeric values of the close codes are not modelled. `Unlisted` stands for every code outside the switch.
- Integer widths are not modelled: timestamps and close codes are unbounded integers.
- `didClearBootEvents` is never reset to false in the source, and the model keeps it that way.

## Findings

| source | as written | input that shows it | evidently intended | confidence | as-written member | corrected member |
|---|---|---|---|---|---|---|
| code/assurance/src/main/java/com/adobe/marketing/mobile/assurance/AssuranceSession.java:848-855 | each listener is unregistered from the `HashSet` while a for-each loop iterates over that same set; the fail-fast iterator throws `ConcurrentModificationException` on the next step | two registered status listeners and a normal close: the first is told and removed, then the loop throws and the second is never told | every listener is told once and the set ends empty | not executed; high | SessionSpec.TeardownAsWrittenMissesListener | Session.AssuranceSession.NotifyTerminationAndRemoveStatusListeners |
