/** The UI-side aggregator (viewmodel/FlowVisualizerViewModel.kt): it turns every
    event the tracker publishes into a display record, keeps the last 100
    records, the set of streams that have started and not yet ended, and one
    visibility flag per main stream category. */
module ViewModel {
  import opened Text
  import opened FlowEvents
  import opened StreamTrace
  import opened Tracker

  /** `maxEventsHistory`. */
  const MaxEventsHistory: nat := 100

  /** A record colour: a `#RRGGBB` string, or no colour at all for the one category
      the colour table has no entry for. */
  datatype Color = Hex(code: string) | Unmapped

  /** `FlowEventUI`: one display record. */
  datatype FlowEventUI = FlowEventUI(
    id: string, time: string, kind: string, content: string,
    color: Color, streamName: string, streamType: StreamType)

  /** The colour table of the categories; OPERATOR has no entry. */
  function TypeColor(t: StreamType): Color {
    match t
    case FLOW => Hex("#4CAF50")
    case STATE_FLOW => Hex("#2196F3")
    case LIVE_DATA => Hex("#9C27B0")
    case RX_OBSERVABLE => Hex("#FF9800")
    case RX_SUBJECT => Hex("#F44336")
    case CHANNEL => Hex("#795548")
    case OPERATOR => Unmapped
  }

  const ErrorColor := Hex("#F44336")
  const CancelledColor := Hex("#FF9800")

  /** The record colour: fixed for errors and cancellations, the category's otherwise. */
  function RecordColor<T>(e: FlowEvent<T>): Color {
    match e
    case Error(_, _, _) => ErrorColor
    case Cancelled(_, _) => CancelledColor
    case _ => TypeColor(e.streamType)
  }

  function Label<T>(e: FlowEvent<T>): string {
    match e
    case Emission(_, _, _) => "EMISSION"
    case Error(_, _, _) => "ERROR"
    case Completion(_, _) => "COMPLETED"
    case Started(_, _) => "STARTED"
    case Cancelled(_, _) => "CANCELLED"
  }

  /** The record text; `render` is the value's `toString`. */
  function Content<T>(e: FlowEvent<T>, render: T -> string): string {
    match e
    case Emission(v, _, _) => render(v)
    case Error(t, _, _) => if t.message.Some? then t.message.value else "Unknown error"
    case Completion(_, _) => "Stream completed"
    case Started(_, _) => "Stream started"
    case Cancelled(_, _) => "Stream cancelled"
  }

  /** The record `processEvent` builds for one event; `formatTime` is the `HH:mm:ss.SSS` formatter. */
  function ToRecord<T>(s: Stamped<T>, render: T -> string, formatTime: int -> string): (r: FlowEventUI)
    ensures r.id == s.id && r.time == formatTime(s.timestamp)
    ensures r.streamName == s.event.streamName && r.streamType == s.event.streamType
    ensures r.kind == Label(s.event) && r.content == Content(s.event, render) && r.color == RecordColor(s.event)
  {
    FlowEventUI(s.id, formatTime(s.timestamp), Label(s.event), Content(s.event, render),
                RecordColor(s.event), s.event.streamName, s.event.streamType)
  }

  /** The label tells the variant: two events get the same label exactly when they are of the same variant. */
  lemma LabelIdentifiesVariant<T>(a: FlowEvent<T>, b: FlowEvent<T>)
    ensures Label(a) == Label(b) <==>
      (a.Emission? && b.Emission?) || (a.Error? && b.Error?) || (a.Completion? && b.Completion?)
      || (a.Started? && b.Started?) || (a.Cancelled? && b.Cancelled?)
  {
    match a
    case Emission(_, _, _) =>
      assert Label(a)[1] == 'M';
      assert Label(b) == Label(a) ==> b.Emission?;
    case Error(_, _, _) =>
      assert Label(a)[1] == 'R';
    case Completion(_, _) =>
      assert Label(a)[1] == 'O';
    case Started(_, _) =>
      assert Label(a)[1] == 'T';
    case Cancelled(_, _) =>
      assert Label(a)[1] == 'A';
  }

  /** Only OPERATOR records that are neither errors nor cancellations go without colour,
      and an error or a cancellation always has its fixed colour whatever its category. */
  lemma RecordColorCases<T>(e: FlowEvent<T>)
    ensures RecordColor(e) == Unmapped <==> e.streamType == OPERATOR && !e.Error? && !e.Cancelled?
    ensures e.Error? ==> RecordColor(e) == Hex("#F44336")
    ensures e.Cancelled? ==> RecordColor(e) == Hex("#FF9800")
    ensures !e.Error? && !e.Cancelled? && e.streamType != OPERATOR ==> RecordColor(e) == TypeColor(e.streamType) != Unmapped
  {
  }

  /** An error's text is its message when it has one. */
  lemma ErrorContent<T>(t: Throwable, name: string, kind: StreamType, render: T -> string)
    ensures Content(FlowEvent<T>.Error(t, name, kind), render) == if t.message.Some? then t.message.value else "Unknown error"
  {
  }

  // ---------------------------------------------------------------------
  // The rolling history
  // ---------------------------------------------------------------------

  /** Kotlin's `takeLast(n)`: the last `n` elements, or all of them when there are fewer. */
  function TakeLast<X>(s: seq<X>, n: nat): (r: seq<X>)
    ensures |r| == if |s| <= n then |s| else n
    ensures r == s[|s| - |r|..]
  {
    if |s| <= n then s else s[|s| - n..]
  }

  /** Adding one record: the cap holds, the new record is last, and a short
      history is kept whole while a full one loses exactly its oldest record. */
  lemma TakeLastAppend<X>(h: seq<X>, x: X)
    requires |h| <= MaxEventsHistory
    ensures var r := TakeLast(h + [x], MaxEventsHistory);
      && |r| <= MaxEventsHistory && r[|r| - 1] == x
      && (|h| < MaxEventsHistory ==> r == h + [x])
      && (|h| == MaxEventsHistory ==> r == h[1..] + [x])
  {
    var r := TakeLast(h + [x], MaxEventsHistory);
    if |h| == MaxEventsHistory {
      assert r == (h + [x])[1..];
      assert (h + [x])[1..] == h[1..] + [x];
    }
  }

  /** Trimming twice keeps the same tail as trimming once. */
  lemma TakeLastTwice<X>(a: seq<X>, b: seq<X>, n: nat)
    ensures TakeLast(TakeLast(a, n) + b, n) == TakeLast(a + b, n)
  {
    var t := TakeLast(a, n);
    var k := |a| - |t|;
    assert a == a[..k] + t;
    assert a + b == a[..k] + (t + b);
    if |t + b| > n {
      assert (a + b)[|a + b| - n..] == (t + b)[|t + b| - n..];
    } else if |a| > n {
      assert b == [] && a + b == a && t + b == t;
    }
  }

  /** The set of active streams after one event. */
  function ActiveAfter<T>(active: set<string>, e: FlowEvent<T>): (r: set<string>)
    ensures e.Started? ==> r == active + {e.streamName}
    ensures e.Completion? || e.Cancelled? ==> r == active - {e.streamName}
    ensures e.Emission? || e.Error? ==> r == active
  {
    match e
    case Started(name, _) => active + {name}
    case Completion(name, _) => active - {name}
    case Cancelled(name, _) => active - {name}
    case _ => active
  }

  /** The history after `processEvent` has been applied to each of `events` in turn. */
  function HistoryAfter<T>(h: seq<FlowEventUI>, events: seq<Stamped<T>>,
                           render: T -> string, formatTime: int -> string): seq<FlowEventUI>
  {
    if events == [] then h
    else TakeLast(HistoryAfter(h, events[..|events| - 1], render, formatTime)
                  + [ToRecord(events[|events| - 1], render, formatTime)], MaxEventsHistory)
  }

  /** The records of a run of events. */
  function Records<T>(events: seq<Stamped<T>>, render: T -> string, formatTime: int -> string): (r: seq<FlowEventUI>)
    ensures |r| == |events|
    ensures forall i :: 0 <= i < |events| ==> r[i] == ToRecord(events[i], render, formatTime)
  {
    seq(|events|, i requires 0 <= i < |events| => ToRecord(events[i], render, formatTime))
  }

  /** Processing events one at a time leaves the last 100 records of all of them:
      the same as recording everything and trimming once. */
  lemma {:induction false} HistoryIsLastRecords<T>(h: seq<FlowEventUI>, events: seq<Stamped<T>>,
                                                  render: T -> string, formatTime: int -> string)
    requires |h| <= MaxEventsHistory
    ensures HistoryAfter(h, events, render, formatTime) == TakeLast(h + Records(events, render, formatTime), MaxEventsHistory)
    decreases |events|
  {
    if events != [] {
      var init := events[..|events| - 1];
      var last := ToRecord(events[|events| - 1], render, formatTime);
      HistoryIsLastRecords(h, init, render, formatTime);
      TakeLastTwice(h + Records(init, render, formatTime), [last], MaxEventsHistory);
      RecordsAppendLast(events, render, formatTime);
      AppendedInTurn(h, Records(init, render, formatTime), [last]);
    }
  }

  /** Processing one more bus event extends the history and the active set by that event. */
  lemma BusStep<T>(h: seq<FlowEventUI>, active: set<string>, bus: seq<Stamped<T>>, lo: nat, hi: nat,
                   render: T -> string, formatTime: int -> string, before: seq<FlowEventUI>, beforeActive: set<string>)
    requires lo <= hi < |bus|
    requires before == HistoryAfter(h, bus[lo..hi], render, formatTime)
    requires beforeActive == ActiveAfterAll(active, Unstamped(bus[lo..hi]))
    ensures HistoryAfter(h, bus[lo..hi + 1], render, formatTime)
         == TakeLast(before + [ToRecord(bus[hi], render, formatTime)], MaxEventsHistory)
    ensures ActiveAfterAll(active, Unstamped(bus[lo..hi + 1])) == ActiveAfter(beforeActive, bus[hi].event)
  {
    assert bus[lo..hi + 1][..hi - lo] == bus[lo..hi];
    assert Unstamped(bus[lo..hi + 1])[..hi - lo] == Unstamped(bus[lo..hi]);
  }

  /** The records of a run of events end with the record of its last event. */
  lemma RecordsAppendLast<T>(events: seq<Stamped<T>>, render: T -> string, formatTime: int -> string)
    requires events != []
    ensures Records(events, render, formatTime)
         == Records(events[..|events| - 1], render, formatTime) + [ToRecord(events[|events| - 1], render, formatTime)]
  {
  }

  /** Appending in two steps is appending the two pieces at once. */
  lemma AppendedInTurn<X>(a: seq<X>, b: seq<X>, c: seq<X>)
    ensures a + b + c == a + (b + c)
  {
  }

  /** The active streams after each of `events` in turn. */
  function ActiveAfterAll<T>(active: set<string>, events: seq<FlowEvent<T>>): set<string> {
    if events == [] then active
    else ActiveAfter(ActiveAfterAll(active, events[..|events| - 1]), events[|events| - 1])
  }

  /** Once the events of one collection of a tracked flow have been processed, the
      flow's stream is no longer active, whatever the source did and however the
      collection ended. */
  lemma CollectionLeavesStreamInactive<T>(active: set<string>, up: Flow<T>, name: string, kind: StreamType, c: Collector)
    ensures name !in ActiveAfterAll(active, Events(Collect(Tracked(up, name, kind), c).signals))
  {
    var s := Collect(Tracked(up, name, kind), c).signals;
    TrackedShape(up, name, kind, c);
    var n := |s|;
    assert s == s[..n - 1] + [s[n - 1]];
    EventsAppend(s[..n - 1], [s[n - 1]]);
    var events := Events(s);
    assert events[|events| - 1] == s[n - 1].event;
    assert IsTerminal(events[|events| - 1]) && events[|events| - 1].streamName == name;
  }

  /** Which records `getFilteredEvents` keeps: a category with a flag follows its
      flag, every other category is always shown. */
  function Shown(t: StreamType, showFlow: bool, showStateFlow: bool, showLiveData: bool): bool {
    match t
    case FLOW => showFlow
    case STATE_FLOW => showStateFlow
    case LIVE_DATA => showLiveData
    case _ => true
  }

  /** Kotlin's `filter` with `Shown`. */
  function Filter(h: seq<FlowEventUI>, showFlow: bool, showStateFlow: bool, showLiveData: bool): seq<FlowEventUI> {
    if h == [] then []
    else (if Shown(h[0].streamType, showFlow, showStateFlow, showLiveData) then [h[0]] else [])
         + Filter(h[1..], showFlow, showStateFlow, showLiveData)
  }

  /** `a` is `b` with some elements left out, the rest in their order. */
  ghost predicate IsSublist<X>(a: seq<X>, b: seq<X>)
    decreases |b|
  {
    if a == [] then true
    else if b == [] then false
    else if a[0] == b[0] then IsSublist(a[1..], b[1..])
    else IsSublist(a, b[1..])
  }

  /** The filtered list is an order-preserving sublist of the history, holding
      exactly the shown records, each as many times as the history holds it. */
  lemma {:induction false} FilterSpec(h: seq<FlowEventUI>, showFlow: bool, showStateFlow: bool, showLiveData: bool)
    ensures var r := Filter(h, showFlow, showStateFlow, showLiveData);
      && IsSublist(r, h)
      && (forall x :: x in r <==> x in h && Shown(x.streamType, showFlow, showStateFlow, showLiveData))
      && (forall x :: multiset(r)[x] == if Shown(x.streamType, showFlow, showStateFlow, showLiveData) then multiset(h)[x] else 0)
    decreases |h|
  {
    FilterCount(h, showFlow, showStateFlow, showLiveData);
    if h != [] {
      var rest := Filter(h[1..], showFlow, showStateFlow, showLiveData);
      FilterSpec(h[1..], showFlow, showStateFlow, showLiveData);
      var r := Filter(h, showFlow, showStateFlow, showLiveData);
      if Shown(h[0].streamType, showFlow, showStateFlow, showLiveData) {
        assert r == [h[0]] + rest;
        assert r[1..] == rest;
      } else {
        assert r == rest;
        if r != [] {
          assert IsSublist(r, h[1..]);
        }
      }
      assert forall x :: x in h <==> x == h[0] || x in h[1..];
    }
  }

  /** Each record occurs in the filtered list as often as in the history when its
      category is shown, and not at all otherwise. */
  lemma {:induction false} FilterCount(h: seq<FlowEventUI>, showFlow: bool, showStateFlow: bool, showLiveData: bool)
    ensures forall x ::
      multiset(Filter(h, showFlow, showStateFlow, showLiveData))[x]
        == if Shown(x.streamType, showFlow, showStateFlow, showLiveData) then multiset(h)[x] else 0
    decreases |h|
  {
    if h != [] {
      FilterCount(h[1..], showFlow, showStateFlow, showLiveData);
      assert h == [h[0]] + h[1..];
      assert multiset(h) == multiset{h[0]} + multiset(h[1..]);
    }
  }

  /** Filtering a history extended by one record filters the history and keeps the
      record exactly when its category is shown. */
  lemma {:induction false} FilterAppend(h: seq<FlowEventUI>, x: FlowEventUI, showFlow: bool, showStateFlow: bool, showLiveData: bool)
    ensures Filter(h + [x], showFlow, showStateFlow, showLiveData)
      == Filter(h, showFlow, showStateFlow, showLiveData)
         + (if Shown(x.streamType, showFlow, showStateFlow, showLiveData) then [x] else [])
    decreases |h|
  {
    if h == [] {
      assert [] + [x] == [x];
      assert [x][1..] == [];
    } else {
      assert (h + [x])[1..] == h[1..] + [x];
      FilterAppend(h[1..], x, showFlow, showStateFlow, showLiveData);
    }
  }

  /** With every flag on, nothing is filtered out. */
  lemma {:induction false} FilterAllShown(h: seq<FlowEventUI>)
    ensures Filter(h, true, true, true) == h
    decreases |h|
  {
    if h != [] {
      FilterAllShown(h[1..]);
      assert h == [h[0]] + h[1..];
    }
  }

  class FlowVisualizerViewModel<T> {
    /** The tracker whose bus the view model collects. */
    const tracker: ReactiveStreamTracker<T>
    /** `value.toString()` and the time formatter. */
    const render: T -> string
    const formatTime: int -> string

    var flowEvents: seq<FlowEventUI>
    var activeStreams: set<string>
    var showFlowEvents: bool
    var showStateFlowEvents: bool
    var showLiveDataEvents: bool
    /** How many bus events the collector launched by `init` has processed, counted from
        the start of the bus: the bus replays nothing, so the collector begins with the
        events published after the view model is created. */
    var consumed: nat

    ghost predicate Valid()
      reads this
    {
      |flowEvents| <= MaxEventsHistory
    }

    constructor (tracker: ReactiveStreamTracker<T>, render: T -> string, formatTime: int -> string)
      ensures Valid()
      ensures this.tracker == tracker && this.render == render && this.formatTime == formatTime
      ensures flowEvents == [] && activeStreams == {}
      ensures consumed == |tracker.bus|
      ensures showFlowEvents && showStateFlowEvents && showLiveDataEvents
    {
      this.tracker := tracker;
      this.render := render;
      this.formatTime := formatTime;
      flowEvents := [];
      activeStreams := {};
      showFlowEvents := true;
      showStateFlowEvents := true;
      showLiveDataEvents := true;
      consumed := |tracker.bus|;
    }

    /** `processEvent`: the event's record is appended and the history trimmed to the
        last 100; Started adds its stream to the active set, Completion and Cancelled remove it. */
    method ProcessEvent(event: Stamped<T>)
      requires Valid()
      modifies this`flowEvents, this`activeStreams
      ensures Valid()
      ensures flowEvents == TakeLast(old(flowEvents) + [ToRecord(event, render, formatTime)], MaxEventsHistory)
      ensures activeStreams == ActiveAfter(old(activeStreams), event.event)
    {
      if event.event.Started? {
        activeStreams := activeStreams + {event.event.streamName};
      }
      var record := ToRecord(event, render, formatTime);
      if event.event.Completion? || event.event.Cancelled? {
        activeStreams := activeStreams - {event.event.streamName};
      }
      flowEvents := TakeLast(flowEvents + [record], MaxEventsHistory);
    }

    /** The collector launched by `init`: every bus event not yet seen is processed, in bus order.
        `consumed <= |tracker.bus|` is not part of `Valid()`, which reads only the view model:
        it holds because the bus only grows, as every tracker method's `bus == old(bus) + ...`
        ensures states, and a caller re-derives it from those ensures. */
    method CollectBus()
      requires Valid() && consumed <= |tracker.bus|
      modifies this`flowEvents, this`activeStreams, this`consumed
      ensures Valid() && consumed == |tracker.bus|
      ensures flowEvents == HistoryAfter(old(flowEvents), tracker.bus[old(consumed)..], render, formatTime)
      ensures activeStreams == ActiveAfterAll(old(activeStreams), Unstamped(tracker.bus[old(consumed)..]))
    {
      ghost var start := consumed;
      ghost var bus := tracker.bus;
      while consumed < |tracker.bus|
        invariant start <= consumed <= |bus| && tracker.bus == bus
        invariant Valid()
        invariant flowEvents == HistoryAfter(old(flowEvents), bus[start..consumed], render, formatTime)
        invariant activeStreams == ActiveAfterAll(old(activeStreams), Unstamped(bus[start..consumed]))
        decreases |bus| - consumed
      {
        BusStep(old(flowEvents), old(activeStreams), bus, start, consumed, render, formatTime, flowEvents, activeStreams);
        CollectNext();
      }
      assert bus[start..consumed] == bus[start..];
    }

    /** One turn of the collector: the next bus event is processed. */
    method CollectNext()
      requires Valid() && consumed < |tracker.bus|
      modifies this`flowEvents, this`activeStreams, this`consumed
      ensures Valid() && consumed == old(consumed) + 1
      ensures flowEvents == TakeLast(old(flowEvents) + [ToRecord(tracker.bus[old(consumed)], render, formatTime)], MaxEventsHistory)
      ensures activeStreams == ActiveAfter(old(activeStreams), tracker.bus[old(consumed)].event)
    {
      ProcessEvent(tracker.bus[consumed]);
      consumed := consumed + 1;
    }

    /** `toggleStreamTypeVisibility`: sets the flag of FLOW, STATE_FLOW or LIVE_DATA; other categories are ignored. */
    method ToggleStreamTypeVisibility(streamType: StreamType, show: bool)
      modifies this`showFlowEvents, this`showStateFlowEvents, this`showLiveDataEvents
      ensures showFlowEvents == if streamType == FLOW then show else old(showFlowEvents)
      ensures showStateFlowEvents == if streamType == STATE_FLOW then show else old(showStateFlowEvents)
      ensures showLiveDataEvents == if streamType == LIVE_DATA then show else old(showLiveDataEvents)
    {
      match streamType
      case FLOW => showFlowEvents := show;
      case STATE_FLOW => showStateFlowEvents := show;
      case LIVE_DATA => showLiveDataEvents := show;
      case _ =>
    }

    /** `getFilteredEvents`. */
    function GetFilteredEvents(): (r: seq<FlowEventUI>)
      reads this
      ensures IsSublist(r, flowEvents)
      ensures forall x :: x in r <==> x in flowEvents && Shown(x.streamType, showFlowEvents, showStateFlowEvents, showLiveDataEvents)
      ensures forall x :: multiset(r)[x] == if Shown(x.streamType, showFlowEvents, showStateFlowEvents, showLiveDataEvents) then multiset(flowEvents)[x] else 0
    {
      FilterSpec(flowEvents, showFlowEvents, showStateFlowEvents, showLiveDataEvents);
      Filter(flowEvents, showFlowEvents, showStateFlowEvents, showLiveDataEvents)
    }

    /** `clearEvents`: history and active streams are emptied and the tracker is reset. */
    method ClearEvents()
      requires Valid() && tracker.Valid()
      modifies this`flowEvents, this`activeStreams, tracker, tracker.liveDataObservers.Keys`observers
      ensures Valid() && tracker.Valid()
      ensures flowEvents == [] && activeStreams == {}
      ensures tracker.streamCounter == 0 && tracker.liveDataObservers == map[] && tracker.mutableStateFlows == map[]
      ensures tracker.isTrackingEnabled == old(tracker.isTrackingEnabled) && tracker.bus == old(tracker.bus)
      ensures tracker.config == old(tracker.config)
      ensures forall ld :: ld in old(tracker.liveDataObservers) ==>
        ld.observers == Without(old(ld.observers), old(tracker.liveDataObservers)[ld])
    {
      flowEvents := [];
      activeStreams := {};
      tracker.Reset();
    }
  }

  /** The events of a run of constructed events. */
  function Unstamped<T>(s: seq<Stamped<T>>): (r: seq<FlowEvent<T>>)
    ensures |r| == |s|
    ensures forall i :: 0 <= i < |s| ==> r[i] == s[i].event
  {
    seq(|s|, i requires 0 <= i < |s| => s[i].event)
  }

  /** The visibility sequence of the view model's test: flags start on and each toggle touches only its own flag. */
  method ToggleScenario<T>(tracker: ReactiveStreamTracker<T>, render: T -> string, formatTime: int -> string)
    returns (flags: seq<bool>)
    ensures flags == [true, true, true, false, true, true, false, true, false,
                      false, false, false, true, false, false]
  {
    var vm := new FlowVisualizerViewModel(tracker, render, formatTime);
    flags := [vm.showFlowEvents, vm.showStateFlowEvents, vm.showLiveDataEvents];
    vm.ToggleStreamTypeVisibility(FLOW, false);
    flags := flags + [vm.showFlowEvents, vm.showStateFlowEvents, vm.showLiveDataEvents];
    vm.ToggleStreamTypeVisibility(LIVE_DATA, false);
    flags := flags + [vm.showFlowEvents, vm.showStateFlowEvents, vm.showLiveDataEvents];
    vm.ToggleStreamTypeVisibility(STATE_FLOW, false);
    flags := flags + [vm.showFlowEvents, vm.showStateFlowEvents, vm.showLiveDataEvents];
    vm.ToggleStreamTypeVisibility(FLOW, true);
    flags := flags + [vm.showFlowEvents, vm.showStateFlowEvents, vm.showLiveDataEvents];
  }
}
