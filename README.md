# Flow Visualiser, modelled in Dafny

Flow Visualiser is an Android debugging library. It wraps Kotlin Flows, StateFlows
and LiveData so that each collection or observation reports lifecycle events on one
shared event bus. A view model turns those events into a bounded history of display
records. A plugin object owns the configuration, and a helper keeps a table of
debugger breakpoints. A code scanner walks a source tree for stream declarations.

This project models that core and proves what it promises:

- `text.dfy` (module `Text`): 32-bit counter wrap-around, decimal rendering of
  counters, case folding, and `String.trim`.
- `events.dfy` (`FlowEvents`): the five `FlowEvent` variants and the seven stream
  categories. It also states which variants compare by value and which by identity.
- `trace.dfy` (`StreamTrace`): what one collection of a tracked flow puts on the bus
  and hands downstream. Tracked flows nest, and the model says which upstream
  failures or downstream failures end a collection.
- `tracker.dfy` (`Tracker`): `ReactiveStreamTracker` as a class. The bus is an
  append-only log, and the tracker also keeps its LiveData observer registry,
  state-flow registry and stream counter. The class invariant says that every
  observer the tracker made is attached exactly when it is the registered one.
- `viewmodel.dfy` (`ViewModel`): `FlowVisualizerViewModel`. It covers record
  construction and the 100-record history. It also covers the active-stream set,
  the category filter and the collector that drains the bus.
- `config.dfy` (`Config`): `FlowVisualizerConfig` and its `Builder`, including
  how the builder replaces bad values with defaults.
- `debugger.dfy` (`Debugger`): `DebuggerHelper` and its connection and breakpoint
  table.
- `plugin.dfy` (`Plugin`): the `FlowVisualizer` object. Its effects on the
  platform (notification service, activity launch, automatic tracking) are kept
  as a log of `Effect` values.
- `scanpatterns.dfy` (`ScanPatterns`): the scanner's five declaration regular
  expressions and `extractVariableName`. They are written as hand-coded
  recognisers with a leftmost-match search.
- `scanner.dfy` (`Scanner`): `CodeScanner`. It covers per-line detection, the
  directory walk over an abstract file tree, the start/stop guard of the scan
  loop, and the listener list.

Things the program takes from its environment become parameters:

- the UUID and clock that stamp each event: `clock`, giving the n-th event's `Stamp`;
- `SimpleDateFormat`: `formatTime`;
- `toString` of values: `render`;
- `System.currentTimeMillis`: `millis`;
- the file system: a `Node` tree whose files carry their lines; paths are given
  already absolute and normalised (`File.absolutePath`).

Behaviour of the code worth noting:

- The bus is `MutableSharedFlow(extraBufferCapacity = 100)` with the default
  overflow policy and no replay. When the buffer is full the emitter suspends;
  no event is dropped. A collector sees only the events published after it
  subscribed. The model is an unbounded log, and the view model starts reading
  it at the position where it was created.
- The view model's history bound is the constant 100. The tracker stores a
  configuration but never reads it.
- The stream counter is a plain `var` with no synchronisation. The model is
  sequential and wraps the counter at 32 bits (`Text.Inc32`).
- `Cancelled` is published for any completion with a cause. That includes the
  upstream failure that has just published `Error`, as well as a consumer's
  cancellation (`StreamTrace.FailingSourceTrace`).
- The configuration has eight fields, each with a normalising setter in
  `FlowVisualizerConfig.kt`.
- `observeForever` hands a LiveData's current value, if it holds one, to the
  observer it attaches, so tracking such a LiveData publishes `Started` and then
  an `Emission` of that value.
- `trackOperator` uses an `OPERATOR` category that `StreamType.kt` does not
  declare, and the view model's colour table has no case for it. The model adds
  the value; its records carry the colour `Unmapped`.

## Model

| member | source | states |
|---|---|---|
| Text.Inc32 | app/src/main/java/com/flow/visualiser/core/ReactiveStreamTracker.kt:71 | `++streamCounter` on an `Int`: the result equals the old value plus one, modulo 2^32 |
| Text.NatToStringRoundTrip | app/src/main/java/com/flow/visualiser/core/ReactiveStreamTracker.kt:72 | reading back the decimal rendering of a counter gives the counter |
| Text.IntToStringInjective | app/src/main/java/com/flow/visualiser/core/ReactiveStreamTracker.kt:72 | two counter values with the same `$streamId` rendering are equal |
| Text.Lower | app/src/main/java/com/flow/visualiser/plugin/CodeScanner.kt:149 | `lowercase()` keeps the length and folds each character on its own |
| Text.LeadingSpace | app/src/main/java/com/flow/visualiser/plugin/CodeScanner.kt:209 | the whitespace run at the front of a line is maximal |
| Text.TrailingSpace | app/src/main/java/com/flow/visualiser/plugin/CodeScanner.kt:209 | the whitespace run at the end of a line is maximal |
| Text.TrimSpec | app/src/main/java/com/flow/visualiser/plugin/CodeScanner.kt:209 | `trim()` yields a contiguous piece of the line, cut only at whitespace, that neither starts nor ends with whitespace |
| FlowEvents.Construct | app/src/main/java/com/flow/visualiser/model/FlowEvent.kt:8-10 | every event gets its id and timestamp at construction, whatever its variant |
| FlowEvents.DefaultStream | app/src/main/java/com/flow/visualiser/model/FlowEvent.kt:17-54 | each variant defaults its category to FLOW |
| FlowEvents.DataClassEqualityIgnoresStamp | app/src/main/java/com/flow/visualiser/model/FlowEvent.kt:17-30 | two Emission or two Error events with equal fields are `==` even when their ids and timestamps differ |
| FlowEvents.PlainClassEqualityIsIdentity | app/src/main/java/com/flow/visualiser/model/FlowEvent.kt:35-54 | Completion, Started and Cancelled events compare by identity: separately constructed ones are never `==` |
| FlowEvents.KotlinEqualsIsEquivalence | app/src/main/java/com/flow/visualiser/model/FlowEvent.kt:8-54 | event equality is an equivalence, and equal events share stream name, category and variant |
| StreamTrace.ClosingViews | app/src/main/java/com/flow/visualiser/core/ReactiveStreamTracker.kt:85-93 | closing a collection publishes exactly one terminal event and delivers nothing: Completion without a cause, Cancelled with one |
| StreamTrace.RelayValues | app/src/main/java/com/flow/visualiser/core/ReactiveStreamTracker.kt:94-98 | the tracked collector passes downstream exactly the values it receives, in order |
| StreamTrace.RelayDeliversEvents | app/src/main/java/com/flow/visualiser/core/ReactiveStreamTracker.kt:94-97 | each received value is announced as one Emission under the stream's name and category |
| StreamTrace.RelayTerminals | app/src/main/java/com/flow/visualiser/core/ReactiveStreamTracker.kt:94-98 | relaying adds no terminal event of its own |
| StreamTrace.RelayAnnounces | app/src/main/java/com/flow/visualiser/core/ReactiveStreamTracker.kt:94-98 | each value's Emission is published before the value goes downstream |
| StreamTrace.CollectIsTransparent | app/src/main/java/com/flow/visualiser/core/ReactiveStreamTracker.kt:66-100 | tracking does not change the values a collector receives or how the collection ends, at any depth of wrapping |
| StreamTrace.TrackedSourceEvents | app/src/main/java/com/flow/visualiser/core/ReactiveStreamTracker.kt:74-98 | over a plain source the bus gets Started, one Emission per delivered value, then Completion or Cancelled as the collection ended |
| StreamTrace.CompletingSourceTrace | app/src/main/java/com/flow/visualiser/core/ReactiveStreamTracker.kt:74-98 | a source that completes gives Started, its Emissions and Completion, and delivers all its values |
| StreamTrace.FailingSourceTrace | app/src/main/java/com/flow/visualiser/core/ReactiveStreamTracker.kt:80-93 | a source that fails gives Started, its Emissions, Error with the cause, then Cancelled, and the failure propagates |
| StreamTrace.OneTerminalPerLayer | app/src/main/java/com/flow/visualiser/core/ReactiveStreamTracker.kt:85-93 | every tracking layer publishes exactly one terminal event per collection |
| StreamTrace.TerminalsMatchEnd | app/src/main/java/com/flow/visualiser/core/ReactiveStreamTracker.kt:85-93 | every terminal event is Completion when the collection completed and Cancelled when it failed |
| StreamTrace.TrackedShape | app/src/main/java/com/flow/visualiser/core/ReactiveStreamTracker.kt:74-98 | the events of a tracked collection begin with its Started and end with its one terminal event |
| Tracker.StateCell.constructor | app/src/main/java/com/flow/visualiser/core/ReactiveStreamTracker.kt:164 | the proxy state flow starts with the given value |
| Tracker.Observer.constructor | app/src/main/java/com/flow/visualiser/core/ReactiveStreamTracker.kt:237-242 | an observer remembers its LiveData and stream name |
| Tracker.Without | app/src/main/java/com/flow/visualiser/core/ReactiveStreamTracker.kt:226 | `removeObserver` leaves every other observer and drops that one |
| Tracker.WithoutAppend | app/src/main/java/com/flow/visualiser/core/ReactiveStreamTracker.kt:226 | removal acts on each part of the list separately, so the remaining observers keep their attachment order |
| Tracker.WithoutAbsent | app/src/main/java/com/flow/visualiser/core/ReactiveStreamTracker.kt:226 | removing an observer that is not attached leaves the list as it is |
| Tracker.GeneratedNamesDistinct | app/src/main/java/com/flow/visualiser/core/ReactiveStreamTracker.kt:71-72 | generated names with distinct counter values are distinct |
| Tracker.LiveDataEmissions | app/src/main/java/com/flow/visualiser/core/ReactiveStreamTracker.kt:237-241 | one LIVE_DATA Emission per attached tracker observer, in attachment order |
| Tracker.ReactiveStreamTracker.constructor | app/src/main/java/com/flow/visualiser/core/ReactiveStreamTracker.kt:31-47 | empty bus and registries, default configuration, tracking on, counter 0 |
| Tracker.ReactiveStreamTracker.Publish | app/src/main/java/com/flow/visualiser/core/ReactiveStreamTracker.kt:31 | `emit` appends the event, stamped in bus order |
| Tracker.ReactiveStreamTracker.SetConfig | app/src/main/java/com/flow/visualiser/core/ReactiveStreamTracker.kt:52-54 | stores the configuration |
| Tracker.ReactiveStreamTracker.SetTrackingEnabled | app/src/main/java/com/flow/visualiser/core/ReactiveStreamTracker.kt:59-61 | stores the flag |
| Tracker.ReactiveStreamTracker.TrackFlow | app/src/main/java/com/flow/visualiser/core/ReactiveStreamTracker.kt:66-100 | with tracking off, the same flow and an unchanged counter; otherwise the counter advances and the flow is wrapped under the given or a "Flow-n" name |
| Tracker.ReactiveStreamTracker.TrackOperator | app/src/main/java/com/flow/visualiser/core/ReactiveStreamTracker.kt:106-140 | as TrackFlow, with category OPERATOR and prefix "Operator" |
| Tracker.ReactiveStreamTracker.TrackStateFlow | app/src/main/java/com/flow/visualiser/core/ReactiveStreamTracker.kt:145-181 | with tracking off, the same state flow; otherwise a fresh proxy holding the current value, with Started and Emission of that value published |
| Tracker.ReactiveStreamTracker.ForwardStateValue | app/src/main/java/com/flow/visualiser/core/ReactiveStreamTracker.kt:167-173 | the proxy takes the source's value and that value is published as an Emission |
| Tracker.ReactiveStreamTracker.ForwardStateFailure | app/src/main/java/com/flow/visualiser/core/ReactiveStreamTracker.kt:174-177 | a collector failure is published as one Error and nothing else |
| Tracker.ReactiveStreamTracker.RegisterMutableStateFlow | app/src/main/java/com/flow/visualiser/core/ReactiveStreamTracker.kt:186-203 | with tracking off, nothing changes; otherwise the flow is registered under its name, with Started and Emission of its value |
| Tracker.ReactiveStreamTracker.ObserveRegisteredValue | app/src/main/java/com/flow/visualiser/core/ReactiveStreamTracker.kt:204-208 | each observed value is published as an Emission |
| Tracker.ReactiveStreamTracker.TrackLiveData | app/src/main/java/com/flow/visualiser/core/ReactiveStreamTracker.kt:215-252 | with tracking off, nothing changes; otherwise the earlier observer is detached and replaced by a fresh one. Started is published, then an Emission of the current value if the LiveData holds one. The LiveData is returned |
| Tracker.ReactiveStreamTracker.Retrack | app/src/main/java/com/flow/visualiser/core/ReactiveStreamTracker.kt:223-249 | old observer removed, Started published, new observer attached and registered and handed the current value if there is one, the invariant kept |
| Tracker.ReactiveStreamTracker.Attach | app/src/main/java/com/flow/visualiser/core/ReactiveStreamTracker.kt:236-249 | `observeForever` appends the fresh observer, the registry maps the LiveData to it, and a value already held is published as one Emission under its name |
| Tracker.ReactiveStreamTracker.DispatchLiveData | app/src/main/java/com/flow/visualiser/core/ReactiveStreamTracker.kt:237-241 | a value set on a LiveData becomes its current value and publishes one Emission per attached observer, in attachment order |
| Tracker.ReactiveStreamTracker.StopTrackingLiveData | app/src/main/java/com/flow/visualiser/core/ReactiveStreamTracker.kt:257-264 | the registered observer, if any, is detached and forgotten; otherwise nothing changes |
| Tracker.ReactiveStreamTracker.Reset | app/src/main/java/com/flow/visualiser/core/ReactiveStreamTracker.kt:269-281 | every registered observer is detached, both registries are emptied, the counter is 0, and the flag, configuration and bus are untouched |
| Tracker.ReactiveStreamTracker.DetachAll | app/src/main/java/com/flow/visualiser/core/ReactiveStreamTracker.kt:272-277 | after the loop no tracker observer is attached to any LiveData |
| Tracker.ReactiveStreamTracker.AtMostOneObserver | app/src/main/java/com/flow/visualiser/core/ReactiveStreamTracker.kt:223-249 | however often a LiveData is tracked, at most one tracker observer is attached to it: the registered one |
| Tracker.ReactiveStreamTracker.NothingAttachedAfterReset | app/src/main/java/com/flow/visualiser/core/ReactiveStreamTracker.kt:269-281 | once the registry is empty, none of the tracker's observers remains attached |
| ViewModel.ToRecord | app/src/main/java/com/flow/visualiser/viewmodel/FlowVisualizerViewModel.kt:77-143 | a record carries the event's id, formatted time, stream name and category, its label, content and colour |
| ViewModel.LabelIdentifiesVariant | app/src/main/java/com/flow/visualiser/viewmodel/FlowVisualizerViewModel.kt:77-143 | two records have the same label exactly when their events are the same variant |
| ViewModel.RecordColorCases | app/src/main/java/com/flow/visualiser/viewmodel/FlowVisualizerViewModel.kt:68-138 | errors are red and cancellations orange whatever the category; other events take their category's colour, and only OPERATOR has none |
| ViewModel.ErrorContent | app/src/main/java/com/flow/visualiser/viewmodel/FlowVisualizerViewModel.kt:94 | an Error's content is its message, or "Unknown error" when it has none |
| ViewModel.TakeLast | app/src/main/java/com/flow/visualiser/viewmodel/FlowVisualizerViewModel.kt:146 | `takeLast(n)` is the suffix of length at most n |
| ViewModel.TakeLastAppend | app/src/main/java/com/flow/visualiser/viewmodel/FlowVisualizerViewModel.kt:145-147 | appending to a history of at most 100 ends with the new record and drops the oldest only when full |
| ViewModel.TakeLastTwice | app/src/main/java/com/flow/visualiser/viewmodel/FlowVisualizerViewModel.kt:145-147 | trimming before appending loses nothing that trimming afterwards would keep |
| ViewModel.ActiveAfter | app/src/main/java/com/flow/visualiser/viewmodel/FlowVisualizerViewModel.kt:60-131 | Started adds its stream, Completion and Cancelled remove it, Emission and Error leave the set alone |
| ViewModel.HistoryIsLastRecords | app/src/main/java/com/flow/visualiser/viewmodel/FlowVisualizerViewModel.kt:145-147 | processing events one by one leaves the last 100 of all their records |
| ViewModel.BusStep | app/src/main/java/com/flow/visualiser/viewmodel/FlowVisualizerViewModel.kt:47-51 | the history and the active set after one more bus event follow from those before it |
| ViewModel.CollectionLeavesStreamInactive | app/src/main/java/com/flow/visualiser/viewmodel/FlowVisualizerViewModel.kt:100-131 | after one collection of a tracked flow, its stream is not active, however the collection ended |
| ViewModel.FilterSpec | app/src/main/java/com/flow/visualiser/viewmodel/FlowVisualizerViewModel.kt:165-174 | the filter keeps an order-preserving sublist of the history holding exactly the records whose category is shown, each as many times as the history holds it |
| ViewModel.FilterCount | app/src/main/java/com/flow/visualiser/viewmodel/FlowVisualizerViewModel.kt:165-174 | a shown record occurs in the filtered list as often as in the history, a hidden one not at all |
| ViewModel.FilterAppend | app/src/main/java/com/flow/visualiser/viewmodel/FlowVisualizerViewModel.kt:165-174 | filtering a history extended by one record filters the history and keeps the record exactly when its category is shown |
| ViewModel.FilterAllShown | app/src/main/java/com/flow/visualiser/viewmodel/FlowVisualizerViewModel.kt:165-174 | with every flag on, nothing is filtered out |
| ViewModel.FlowVisualizerViewModel.constructor | app/src/main/java/com/flow/visualiser/viewmodel/FlowVisualizerViewModel.kt:25-52 | empty history and active set, all three categories shown; the collector starts at the current end of the bus, since the bus replays nothing |
| ViewModel.FlowVisualizerViewModel.ProcessEvent | app/src/main/java/com/flow/visualiser/viewmodel/FlowVisualizerViewModel.kt:57-148 | the record is appended and the history trimmed to 100; the active set follows ActiveAfter |
| ViewModel.FlowVisualizerViewModel.CollectBus | app/src/main/java/com/flow/visualiser/viewmodel/FlowVisualizerViewModel.kt:45-52 | every unseen bus event is processed in bus order, leaving the history and active set the specification functions give |
| ViewModel.FlowVisualizerViewModel.CollectNext | app/src/main/java/com/flow/visualiser/viewmodel/FlowVisualizerViewModel.kt:48-50 | the next bus event is processed and counted |
| ViewModel.FlowVisualizerViewModel.ToggleStreamTypeVisibility | app/src/main/java/com/flow/visualiser/viewmodel/FlowVisualizerViewModel.kt:153-160 | sets the flag of FLOW, STATE_FLOW or LIVE_DATA and leaves the others; other categories change nothing |
| ViewModel.FlowVisualizerViewModel.GetFilteredEvents | app/src/main/java/com/flow/visualiser/viewmodel/FlowVisualizerViewModel.kt:165-174 | an order-preserving sublist of the history holding every record whose category is shown, with its multiplicity, and no other |
| ViewModel.FlowVisualizerViewModel.ClearEvents | app/src/main/java/com/flow/visualiser/viewmodel/FlowVisualizerViewModel.kt:179-185 | history and active set emptied and the tracker reset: counter zero, registries emptied, each registered observer detached; the tracker's flag, configuration and bus untouched |
| ViewModel.ToggleScenario | app/src/test/java/com/flow/visualiser/viewmodel/FlowVisualizerViewModelTest.kt:41-79 | the flag sequence the view model's test expects, from the initial state through four toggles |
| Config.NormaliseMaxEvents | app/src/main/java/com/flow/visualiser/plugin/FlowVisualizerConfig.kt:33-35 | a positive maximum is kept, anything else becomes 100 |
| Config.NormaliseScanInterval | app/src/main/java/com/flow/visualiser/plugin/FlowVisualizerConfig.kt:68-70 | a positive interval is kept, anything else becomes 5000 |
| Config.NormaliseIdempotent | app/src/main/java/com/flow/visualiser/plugin/FlowVisualizerConfig.kt:33-70 | normalising twice is normalising once |
| Config.Builder.constructor | app/src/main/java/com/flow/visualiser/plugin/FlowVisualizerConfig.kt:20-28 | a new builder holds the defaults |
| Config.Builder.SetMaxEvents | app/src/main/java/com/flow/visualiser/plugin/FlowVisualizerConfig.kt:33-35 | only the maximum changes, to its normalised value; the builder is returned |
| Config.Builder.SetEnableLogging | app/src/main/java/com/flow/visualiser/plugin/FlowVisualizerConfig.kt:40-42 | only the logging flag changes; the builder is returned |
| Config.Builder.SetDefaultTheme | app/src/main/java/com/flow/visualiser/plugin/FlowVisualizerConfig.kt:47-49 | only the theme changes; the builder is returned |
| Config.Builder.SetNotificationEnabled | app/src/main/java/com/flow/visualiser/plugin/FlowVisualizerConfig.kt:54-56 | only the notification flag changes; the builder is returned |
| Config.Builder.SetCodeScannerEnabled | app/src/main/java/com/flow/visualiser/plugin/FlowVisualizerConfig.kt:61-63 | only the scanner flag changes; the builder is returned |
| Config.Builder.SetScanIntervalMs | app/src/main/java/com/flow/visualiser/plugin/FlowVisualizerConfig.kt:68-70 | only the interval changes, to its normalised value; the builder is returned |
| Config.Builder.SetIncludeThirdPartyLibraries | app/src/main/java/com/flow/visualiser/plugin/FlowVisualizerConfig.kt:75-77 | only the third-party flag changes; the builder is returned |
| Config.Builder.SetDebuggerIntegrationEnabled | app/src/main/java/com/flow/visualiser/plugin/FlowVisualizerConfig.kt:82-84 | only the debugger flag changes; the builder is returned |
| Config.Builder.Build | app/src/main/java/com/flow/visualiser/plugin/FlowVisualizerConfig.kt:89-100 | the configuration holds the builder's values, with a positive maximum and interval |
| Config.DefaultConfig | app/src/main/java/com/flow/visualiser/plugin/FlowVisualizerConfig.kt:112 | `default()` is the builder's defaults, already normalised |
| Config.SettersOverwrite | app/src/main/java/com/flow/visualiser/plugin/FlowVisualizerConfig.kt:30-84 | a later setter call wins, and non-positive inputs fall back to the defaults |
| Debugger.RemoveKey | app/src/main/java/com/flow/visualiser/plugin/DebuggerHelper.kt:116 | removing a key from the insertion order keeps exactly the other keys |
| Debugger.RemoveKeyAppend | app/src/main/java/com/flow/visualiser/plugin/DebuggerHelper.kt:116 | removal acts on each part of the insertion order separately, so the other keys keep their order |
| Debugger.RemoveKeyAbsent | app/src/main/java/com/flow/visualiser/plugin/DebuggerHelper.kt:116 | removing a key that is not there leaves the order as it is |
| Debugger.RemoveKeyDistinct | app/src/main/java/com/flow/visualiser/plugin/DebuggerHelper.kt:116 | removal keeps the insertion order free of duplicates |
| Debugger.DebuggerHelper.constructor | app/src/main/java/com/flow/visualiser/plugin/DebuggerHelper.kt:16-20 | disconnected, no session, no breakpoints |
| Debugger.DebuggerHelper.Connect | app/src/main/java/com/flow/visualiser/plugin/DebuggerHelper.kt:27-36 | ignored when connected; otherwise connected with the given session |
| Debugger.DebuggerHelper.Disconnect | app/src/main/java/com/flow/visualiser/plugin/DebuggerHelper.kt:41-52 | disconnected with no session and no breakpoints |
| Debugger.DebuggerHelper.Put | app/src/main/java/com/flow/visualiser/plugin/DebuggerHelper.kt:73-78 | the map entry is set; a new key goes to the end of the insertion order, an existing one keeps its place |
| Debugger.DebuggerHelper.WatchFlow | app/src/main/java/com/flow/visualiser/plugin/DebuggerHelper.kt:65-81 | ignored when disconnected; otherwise stores a "Flow" breakpoint without condition under the id "flow-<name>-<millis>", appended to the insertion order when the id is new |
| Debugger.DebuggerHelper.WatchStateFlow | app/src/main/java/com/flow/visualiser/plugin/DebuggerHelper.kt:90-106 | ignored when disconnected; otherwise stores a "StateFlow" breakpoint with the condition under the id "stateflow-<name>-<millis>", appended to the insertion order when the id is new |
| Debugger.DebuggerHelper.RemoveBreakpoint | app/src/main/java/com/flow/visualiser/plugin/DebuggerHelper.kt:111-118 | exactly that breakpoint is gone, and the others keep their insertion order |
| Debugger.DebuggerHelper.GetActiveBreakpoints | app/src/main/java/com/flow/visualiser/plugin/DebuggerHelper.kt:123-125 | every breakpoint exactly once, in insertion order |
| Debugger.FlowAndStateFlowIdsDiffer | app/src/main/java/com/flow/visualiser/plugin/DebuggerHelper.kt:72-97 | a Flow breakpoint and a StateFlow breakpoint never share an id |
| Debugger.SameStreamDifferentTimes | app/src/main/java/com/flow/visualiser/plugin/DebuggerHelper.kt:72 | watching one stream at two different times gives two breakpoints |
| Debugger.SessionScenario | app/src/main/java/com/flow/visualiser/plugin/DebuggerHelper.kt:27-125 | connect, watch twice, reconnect and disconnect: two breakpoints during the session, none after, and the first session id kept |
| Plugin.InitEffects | app/src/main/java/com/flow/visualiser/plugin/FlowVisualizer.kt:44-51 | `init` starts the notification service exactly when enabled, and ends by starting automatic tracking |
| Plugin.ShutdownEffects | app/src/main/java/com/flow/visualiser/plugin/FlowVisualizer.kt:81-84 | `shutdown` stops the notification service exactly when enabled |
| Plugin.NotificationServiceBalanced | app/src/main/java/com/flow/visualiser/plugin/FlowVisualizer.kt:44-84 | init and shutdown under one configuration start and stop the service equally often |
| Plugin.FlowVisualizer.constructor | app/src/main/java/com/flow/visualiser/plugin/FlowVisualizer.kt:18-19 | not initialised, default configuration, automatic tracking on, no effects |
| Plugin.FlowVisualizer.Init | app/src/main/java/com/flow/visualiser/plugin/FlowVisualizer.kt:29-53 | a repeated init changes nothing; the first stores the configuration here and in the tracker and causes InitEffects |
| Plugin.FlowVisualizer.Launch | app/src/main/java/com/flow/visualiser/plugin/FlowVisualizer.kt:61-69 | the activity is started only once initialised |
| Plugin.FlowVisualizer.Shutdown | app/src/main/java/com/flow/visualiser/plugin/FlowVisualizer.kt:74-91 | ignored unless initialised, leaving the tracker and its LiveData untouched; otherwise ShutdownEffects, automatic tracking off, tracker reset with its flag, configuration and bus kept, not initialised |
| Plugin.FlowVisualizer.SetTrackingEnabled | app/src/main/java/com/flow/visualiser/plugin/FlowVisualizer.kt:96-99 | sets the tracker's flag and automatic tracking together |
| Plugin.FlowVisualizer.SetAutomaticTrackingEnabled | app/src/main/java/com/flow/visualiser/plugin/FlowVisualizer.kt:105-107 | sets automatic tracking only |
| Plugin.FlowVisualizer.TrackFlow | app/src/main/java/com/flow/visualiser/plugin/FlowVisualizer.kt:117-119 | the tracker's trackFlow contract, unchanged |
| Plugin.FlowVisualizer.TrackStateFlow | app/src/main/java/com/flow/visualiser/plugin/FlowVisualizer.kt:129-131 | the tracker's trackStateFlow contract, unchanged |
| Plugin.InitOnceScenario | app/src/main/java/com/flow/visualiser/plugin/FlowVisualizer.kt:29-69 | a second init keeps the first configuration, and launch does nothing before init |
| ScanPatterns.KeywordAt | app/src/main/java/com/flow/visualiser/plugin/CodeScanner.kt:33 | the keyword alternative matches `val`, `var` or `lateinit var` |
| ScanPatterns.NameAt | app/src/main/java/com/flow/visualiser/plugin/CodeScanner.kt:223 | the captured name is a non-empty word after the keyword and its whitespace |
| ScanPatterns.SkipQualifier | app/src/main/java/com/flow/visualiser/plugin/CodeScanner.kt:33 | `(\w+\.)*` consumes a run of qualifiers inside the line |
| ScanPatterns.LastIndexSpec | app/src/main/java/com/flow/visualiser/plugin/CodeScanner.kt:33 | the backtracking `.*>` stops at the last `>` of its range, and fails when there is none |
| ScanPatterns.TypeStart | app/src/main/java/com/flow/visualiser/plugin/CodeScanner.kt:33 | the type annotation starts after the captured name and its colon |
| ScanPatterns.MatchAt | app/src/main/java/com/flow/visualiser/plugin/CodeScanner.kt:32-46 | a match at a position starts with a declared name and ends after it |
| ScanPatterns.FindFromLeftmost | app/src/main/java/com/flow/visualiser/plugin/CodeScanner.kt:199 | `find` returns the leftmost match, and none when no position matches |
| ScanPatterns.NameAtStartOfMatch | app/src/main/java/com/flow/visualiser/plugin/CodeScanner.kt:200-201 | the matched text, cut out of the line, still starts with the same declared name |
| ScanPatterns.ExtractFromCut | app/src/main/java/com/flow/visualiser/plugin/CodeScanner.kt:221-231 | `extractVariableName` on the matched text returns the declared name |
| ScanPatterns.DetectedNameIsDeclared | app/src/main/java/com/flow/visualiser/plugin/CodeScanner.kt:199-205 | a detected declaration's name is the name the line declares |
| ScanPatterns.NoKeywordNoName | app/src/main/java/com/flow/visualiser/plugin/CodeScanner.kt:226-230 | with no `val`/`var` declaration in the text, the name is null |
| ScanPatterns.PlainShapesExclusive | app/src/main/java/com/flow/visualiser/plugin/CodeScanner.kt:32-43 | at one position, the Flow, StateFlow and LiveData type patterns never both match |
| ScanPatterns.TypedDeclarationFound | app/src/main/java/com/flow/visualiser/plugin/CodeScanner.kt:32-34 | `val x: Flow<T>` is found as one whole-line match |
| ScanPatterns.NameExtracted | app/src/main/java/com/flow/visualiser/plugin/CodeScanner.kt:221-231 | the name extracted from `val x: Flow<T>` is `x` |
| Scanner.Detect | app/src/main/java/com/flow/visualiser/plugin/CodeScanner.kt:197-212 | a line yields one record exactly when the pattern finds a match: the declared name, kind, path, 1-based line number and trimmed line |
| Scanner.DetectorSpec | app/src/main/java/com/flow/visualiser/plugin/CodeScanner.kt:197-212 | the per-line detector yields at most one record, numbered by its line, for the declaration it found |
| Scanner.PatternResultsRecords | app/src/main/java/com/flow/visualiser/plugin/CodeScanner.kt:189-216 | one pattern's results are in line order, at most one per line, each describing its line's declaration |
| Scanner.PatternResultsComplete | app/src/main/java/com/flow/visualiser/plugin/CodeScanner.kt:197-212 | a line is reported exactly when the pattern finds a match in it |
| Scanner.PatternResultsKind | app/src/main/java/com/flow/visualiser/plugin/CodeScanner.kt:203-210 | every result carries the pattern's kind and the file's path |
| Scanner.FileResultsOrdered | app/src/main/java/com/flow/visualiser/plugin/CodeScanner.kt:167-184 | a file's results come FLOW first, then STATE_FLOW, then LIVE_DATA, all with its path |
| Scanner.SourceFileIgnoresCase | app/src/main/java/com/flow/visualiser/plugin/CodeScanner.kt:148-151 | `.kt` and `.java` names are recognised whatever their case |
| Scanner.ThirdPartyDirectoryExtends | app/src/main/java/com/flow/visualiser/plugin/CodeScanner.kt:156-162 | the corrected directory test skips everything the original test skips |
| Scanner.ThirdPartyNamesRecognised | app/src/main/java/com/flow/visualiser/plugin/CodeScanner.kt:156-162 | directories named build, .gradle, gradle or generated are third-party under the corrected test |
| Scanner.ScannedAreSourceFiles | app/src/main/java/com/flow/visualiser/plugin/CodeScanner.kt:127-143 | the walk only reads `.kt`/`.java` files, at paths ending in their names |
| Scanner.ThirdPartyDirectorySkipped | app/src/main/java/com/flow/visualiser/plugin/CodeScanner.kt:133-137 | without third-party scanning, such a directory contributes nothing |
| Scanner.DetectionsAppend | app/src/main/java/com/flow/visualiser/plugin/CodeScanner.kt:140 | results of consecutive files are concatenated in walk order |
| Scanner.TreeDetectionsScanned | app/src/main/java/com/flow/visualiser/plugin/CodeScanner.kt:127-143 | the recursive walk's results are the per-file results of the files it visits, in visiting order |
| Scanner.WalkDetectsInSourceFiles | app/src/main/java/com/flow/visualiser/plugin/CodeScanner.kt:127-143 | every result of a walk names a source file the walk visited |
| Scanner.BuildDirectoryScannedAsWritten | app/src/main/java/com/flow/visualiser/plugin/CodeScanner.kt:156-162 | as written, the directory `/p/build` is not recognised, so its `A.kt` is scanned |
| Scanner.BuildDirectorySkipped | app/src/main/java/com/flow/visualiser/plugin/CodeScanner.kt:133-137 | with the corrected test, the same tree yields no file |
| Scanner.RemoveFirstSpec | app/src/main/java/com/flow/visualiser/plugin/CodeScanner.kt:97 | `remove(listener)` drops exactly its first occurrence and keeps the rest in order |
| Scanner.RemoveFirstCount | app/src/main/java/com/flow/visualiser/plugin/CodeScanner.kt:97 | `remove(listener)` takes exactly one copy of it out of the list |
| Scanner.Reports | app/src/main/java/com/flow/visualiser/plugin/CodeScanner.kt:236-240 | each listener is called once with the results, in registration order |
| Scanner.CodeScanner.Create | app/src/main/java/com/flow/visualiser/plugin/CodeScanner.kt:246-252 | the scanner keeps root, interval and third-party flag, with no job, results or listeners |
| Scanner.CodeScanner.StartScanning | app/src/main/java/com/flow/visualiser/plugin/CodeScanner.kt:55-75 | a running job is kept; otherwise a scan loop with the scanner's interval is started |
| Scanner.CodeScanner.StopScanning | app/src/main/java/com/flow/visualiser/plugin/CodeScanner.kt:80-84 | no job remains |
| Scanner.CodeScanner.AddListener | app/src/main/java/com/flow/visualiser/plugin/CodeScanner.kt:89-91 | the listener is appended |
| Scanner.CodeScanner.RemoveListener | app/src/main/java/com/flow/visualiser/plugin/CodeScanner.kt:96-98 | the first occurrence of the listener is removed |
| Scanner.CodeScanner.ScanTick | app/src/main/java/com/flow/visualiser/plugin/CodeScanner.kt:64-70 | one loop iteration rescans the tree, with the third-party test as written, and reports to every listener; with no job nothing happens |
| Scanner.CodeScanner.ScanCodebase | app/src/main/java/com/flow/visualiser/plugin/CodeScanner.kt:115-122 | the stored and returned results are those of a fresh walk from the root, with the third-party test as written |
| Scanner.CodeScanner.ScanDirectory | app/src/main/java/com/flow/visualiser/plugin/CodeScanner.kt:127-143 | appends the results of the walk below the node, skipping directories that the as-written `isThirdPartyLibrary` test rejects unless third-party libraries are included |
| Scanner.CodeScanner.ScanEntry | app/src/main/java/com/flow/visualiser/plugin/CodeScanner.kt:132-142 | one directory entry adds its own contribution to the results; a directory is entered unless the as-written test rejects it |
| Scanner.CodeScanner.ReportResults | app/src/main/java/com/flow/visualiser/plugin/CodeScanner.kt:236-240 | every listener is called with the results, in order |
| Scanner.ScanWithPattern | app/src/main/java/com/flow/visualiser/plugin/CodeScanner.kt:189-216 | the loop over the lines collects the pattern's per-line records |
| Scanner.ScanSingleFile | app/src/main/java/com/flow/visualiser/plugin/CodeScanner.kt:167-184 | the five patterns' results are concatenated in their fixed order |
| Scanner.ScanFile | app/src/main/java/com/flow/visualiser/plugin/CodeScanner.kt:103-110 | a missing path or a directory gives no results; a file gives its single-file results, whose records carry the path as passed, which stands for `File(filePath).absolutePath` |

## Left out

- Concurrency. Coroutine scopes, `launch`, suspension, and the bus's buffer and
  back-pressure are not modelled. Each launched collector runs inline, one event
  at a time. Interleavings between threads are not modelled, so neither is the
  unsynchronised stream counter.
- StateFlow re-delivery of its current value to each new collector, and
  conflation of fast updates. `ForwardStateValue` and `ObserveRegisteredValue` are
  one collector step each.
- `StreamTrace.Collect`: a downstream collector can fail only right after
  receiving a value. Cancellation from outside before the first value, or while
  the source is suspended, is not modelled.
- Main-thread dispatch of LiveData, LiveData versions, and LiveData observers
  that are not the tracker's. `DispatchLiveData` covers only the tracker's
  observers.
- `Log` calls everywhere; they have no effect on state.
- The notification service, the launcher activity and `AutomaticFlowTracker`
  beyond its enabled flag. They run platform code and reflection, so they
  appear only as entries in the plugin's `Effect` log. AutomaticFlowTracker.kt
  is not part of this model beyond `setEnabled`.
- The Android `Application` and `Context` arguments, `viewModelScope`
  cancellation, and StateFlow observation by the UI.
- `Text.Lower`: ASCII letters only. Kotlin's `lowercase()` folds all of Unicode.
- `Text.TrimSpec`: whitespace is the ASCII space, tab, line feed, vertical tab,
  form feed, carriage return and the four separator controls U+001C to U+001F.
  Kotlin's `trim()` also strips the Unicode space characters.
- The Java regular-expression engine. The five patterns and the name extractor
  are hand-coded recognisers of exactly those expressions: ASCII `\w` and `\s`,
  `.` stopping at line terminators, and the `.*>` tail backtracking to the last
  `>`.
- File I/O. Reading a file (`readText().lines()`) is replaced by the lines a
  `File` node carries. The order of `listFiles()` is the children's order, and a
  `null` listing cannot arise. The tree is finite, so symbolic-link cycles
  cannot arise either.
- `Scanner.ScanFile`: path resolution is not modelled. The path passed is taken
  to be `File(filePath).absolutePath` already, so a relative or unnormalised
  path is not made absolute or normalised as the program does. Likewise the
  scanner's `rootPath` is taken to be normalised and not `/`, where `File`
  would give `/name` rather than `//name` for the root's children.
- The scanning loop's `while (true)`, its `delay(scanIntervalMs)` and its caught
  exceptions. `ScanTick` is one iteration of that loop.
- `FlowVisualizerConfig.builder()` (a one-line factory), and the extension
  functions and forwarders that only call the tracker.

## Findings

| source | as written | input that shows it | evidently intended | confidence | as-written member | corrected member |
|---|---|---|---|---|---|---|
| app/src/main/java/com/flow/visualiser/plugin/CodeScanner.kt:156-162 | `isThirdPartyLibrary` looks for `/build/`, `/.gradle/`, `/gradle/` or `/generated/` in a directory's `absolutePath`. That path has no trailing separator, so the call at line 135 lets the `build` directory itself through and scans the files directly inside it | a root `/p` holding `build/A.kt`, scanned without third-party libraries | `build`, `.gradle`, `gradle` and `generated` directories are skipped | high; not executed | Scanner.BuildDirectoryScannedAsWritten | Scanner.IsThirdPartyDirectory, with Scanner.BuildDirectorySkipped and Scanner.ThirdPartyDirectorySkipped. The walk lemmas hold for any test; `Scanner.CodeScanner` walks with the test as written, as the program does |
