/** The stream tracker (core/ReactiveStreamTracker.kt): the process-wide
    object that wraps flows, state flows and LiveData, names every tracked
    stream, keeps a registry of the LiveData observers it attached, and
    publishes events on one shared bus.

    The bus (`MutableSharedFlow`) is an append-only log of constructed
    events. The bodies of the coroutines the tracker launches are explicit
    steps: the one-shot announcements run inside the call that launches
    them, and each iteration of a long-running collector is a method the
    environment calls when the collected stream changes. */
module Tracker {
  import opened Text
  import opened FlowEvents
  import opened StreamTrace
  import opened Config

  /** A `MutableStateFlow`: a cell with a current value. */
  class StateCell<T> {
    var value: T

    constructor (initial: T)
      ensures value == initial
    {
      value := initial;
    }
  }

  /** The observer lambda `trackLiveData` attaches: it remembers the LiveData it
      was made for and the stream name it reports under. */
  class Observer<T> {
    const source: LiveData<T>
    const streamName: string

    constructor (source: LiveData<T>, streamName: string)
      ensures this.source == source && this.streamName == streamName
    {
      this.source := source;
      this.streamName := streamName;
    }
  }

  /** A `LiveData`: its current value, if one was ever set, and its observers,
      in the order they were attached. */
  class LiveData<T> {
    var value: Option<T>
    var observers: seq<Observer<T>>

    constructor (initial: Option<T>)
      ensures value == initial && observers == []
    {
      value := initial;
      observers := [];
    }
  }

  /** `liveData.removeObserver(o)`: the list without `o`. */
  function Without<T>(observers: seq<Observer<T>>, o: Observer<T>): (r: seq<Observer<T>>)
    ensures o !in r && |r| <= |observers|
    ensures forall i :: 0 <= i < |r| ==> r[i] in observers
    ensures forall i :: 0 <= i < |observers| && observers[i] != o ==> observers[i] in r
  {
    if observers == [] then []
    else (if observers[0] == o then [] else [observers[0]]) + Without(observers[1..], o)
  }

  /** Removing an observer works piece by piece: the other observers keep their order. */
  lemma {:induction false} WithoutAppend<T>(a: seq<Observer<T>>, b: seq<Observer<T>>, o: Observer<T>)
    ensures Without(a + b, o) == Without(a, o) + Without(b, o)
    decreases |a|
  {
    if a != [] {
      assert (a + b)[1..] == a[1..] + b;
      WithoutAppend(a[1..], b, o);
    } else {
      assert a + b == b;
    }
  }

  /** Removing an observer that is not attached leaves the list as it is. */
  lemma {:induction false} WithoutAbsent<T>(observers: seq<Observer<T>>, o: Observer<T>)
    requires o !in observers
    ensures Without(observers, o) == observers
    decreases |observers|
  {
    if observers != [] {
      WithoutAbsent(observers[1..], o);
      assert observers == [observers[0]] + observers[1..];
    }
  }

  /** Appending in turn is appending both pieces at once. */
  lemma ConcatInTurn<X>(b0: seq<X>, p: seq<X>, q: seq<X>, b1: seq<X>, b2: seq<X>)
    requires b1 == b0 + p && b2 == b1 + q
    ensures b2 == b0 + (p + q)
  {
  }

  /** The stream name a wrap uses: the given name when it is not empty, otherwise
      `"<prefix>-<id>"` with the freshly incremented counter. */
  function StreamName(given: string, prefix: string, id: int32): string {
    if given != [] then given else prefix + "-" + IntToString(id as int)
  }

  /** Two wraps that are not given a name and draw different counter values get different names. */
  lemma GeneratedNamesDistinct(prefix: string, i: int32, j: int32)
    requires i != j
    ensures StreamName("", prefix, i) != StreamName("", prefix, j)
  {
    if StreamName("", prefix, i) == StreamName("", prefix, j) {
      var p := prefix + "-";
      assert StreamName("", prefix, i) == p + IntToString(i as int);
      assert StreamName("", prefix, j) == p + IntToString(j as int);
      assert (p + IntToString(i as int))[|p|..] == IntToString(i as int);
      assert (p + IntToString(j as int))[|p|..] == IntToString(j as int);
      IntToStringInjective(i as int, j as int);
    }
  }

  /** The emissions one LiveData value causes: one per attached observer, in attachment order. */
  function LiveDataEmissions<T>(observers: seq<Observer<T>>, v: T): (r: seq<FlowEvent<T>>)
    ensures |r| == |observers|
    ensures forall j :: 0 <= j < |observers| ==> r[j] == Emission(v, observers[j].streamName, LIVE_DATA)
  {
    seq(|observers|, j requires 0 <= j < |observers| => Emission(v, observers[j].streamName, LIVE_DATA))
  }

  /** What `observeForever` delivers at once to a new observer: the LiveData's
      current value when it holds one, as a dispatch to that observer alone. */
  function InitialDispatch<T>(value: Option<T>, o: Observer<T>): seq<FlowEvent<T>> {
    if value.Some? then LiveDataEmissions([o], value.value) else []
  }

  class ReactiveStreamTracker<T> {
    /** The identifier and creation time given to the n-th event constructed (UUID and clock). */
    const clock: nat -> Stamp

    /** `_eventFlow`: every event published so far, oldest first. */
    var bus: seq<Stamped<T>>
    var liveDataObservers: map<LiveData<T>, Observer<T>>
    var mutableStateFlows: map<StateCell<T>, string>
    var config: FlowVisualizerConfig
    var isTrackingEnabled: bool
    var streamCounter: int32

    /** Every observer this tracker has created. */
    ghost var Observers: set<Observer<T>>

    ghost function ObservedSources(): set<LiveData<T>>
      reads this`Observers
    {
      set o | o in Observers :: o.source
    }

    /** The registry holds the one observer the tracker keeps attached to each
        registered LiveData; every other observer it ever made is detached. */
    ghost predicate Valid()
      reads this`liveDataObservers, this`Observers, ObservedSources()`observers
    {
      && (forall ld :: ld in liveDataObservers ==>
            liveDataObservers[ld] in Observers && liveDataObservers[ld].source == ld)
      && (forall o :: o in Observers ==>
            (o in o.source.observers <==> o.source in liveDataObservers && liveDataObservers[o.source] == o))
    }

    /** The events constructed for `events`, numbered from position `base` of the bus. */
    function StampFrom(base: nat, events: seq<FlowEvent<T>>): (r: seq<Stamped<T>>)
      ensures |r| == |events|
      ensures forall j :: 0 <= j < |events| ==> r[j] == Construct(events[j], clock(base + j))
    {
      seq(|events|, j requires 0 <= j < |events| => Construct(events[j], clock(base + j)))
    }

    /** Constructing two runs of events in turn numbers the second after the first. */
    lemma StampFromAppend(base: nat, a: seq<FlowEvent<T>>, b: seq<FlowEvent<T>>)
      ensures StampFrom(base, a + b) == StampFrom(base, a) + StampFrom(base + |a|, b)
    {
      assert forall j :: |a| <= j < |a| + |b| ==> (a + b)[j] == b[j - |a|];
    }

    /** Two publications in turn put on the bus what one publication of both runs would. */
    lemma PublishedInTurn(b0: seq<Stamped<T>>, b1: seq<Stamped<T>>, b2: seq<Stamped<T>>, a: seq<FlowEvent<T>>, x: seq<FlowEvent<T>>)
      requires b1 == b0 + StampFrom(|b0|, a)
      requires b2 == b1 + StampFrom(|b1|, x)
      ensures b2 == b0 + StampFrom(|b0|, a + x)
    {
      assert |b1| == |b0| + |a|;
      StampFromAppend(|b0|, a, x);
      ConcatInTurn(b0, StampFrom(|b0|, a), StampFrom(|b1|, x), b1, b2);
    }

    constructor (clock: nat -> Stamp)
      ensures Valid()
      ensures this.clock == clock
      ensures bus == [] && liveDataObservers == map[] && mutableStateFlows == map[]
      ensures config == Default() && isTrackingEnabled && streamCounter == 0
      ensures Observers == {}
    {
      this.clock := clock;
      bus := [];
      liveDataObservers := map[];
      mutableStateFlows := map[];
      config := Default();
      isTrackingEnabled := true;
      streamCounter := 0;
      Observers := {};
    }

    /** `_eventFlow.emit(event)`: constructs the event and appends it to the bus. */
    method Publish(event: FlowEvent<T>)
      modifies this`bus
      ensures bus == old(bus) + StampFrom(|old(bus)|, [event])
    {
      bus := bus + [Construct(event, clock(|bus|))];
    }

    method SetConfig(c: FlowVisualizerConfig)
      modifies this`config
      ensures config == c
    {
      config := c;
    }

    method SetTrackingEnabled(enabled: bool)
      modifies this`isTrackingEnabled
      ensures isTrackingEnabled == enabled
    {
      isTrackingEnabled := enabled;
    }

    /** `trackFlow`: the flow itself when tracking is off; otherwise a flow that
        reports its collections under a new FLOW stream name. */
    method TrackFlow(flow: Flow<T>, name: string := "") returns (r: Flow<T>)
      modifies this`streamCounter
      ensures !isTrackingEnabled ==> r == flow && streamCounter == old(streamCounter)
      ensures isTrackingEnabled ==>
        && streamCounter == Inc32(old(streamCounter))
        && r == Tracked(flow, StreamName(name, "Flow", streamCounter), FLOW)
    {
      if !isTrackingEnabled {
        return flow;
      }
      streamCounter := Inc32(streamCounter);
      r := Tracked(flow, StreamName(name, "Flow", streamCounter), FLOW);
    }

    /** `trackOperator`: as `trackFlow`, under the OPERATOR category and the "Operator" prefix. */
    method TrackOperator(flow: Flow<T>, operatorName: string) returns (r: Flow<T>)
      modifies this`streamCounter
      ensures !isTrackingEnabled ==> r == flow && streamCounter == old(streamCounter)
      ensures isTrackingEnabled ==>
        && streamCounter == Inc32(old(streamCounter))
        && r == Tracked(flow, StreamName(operatorName, "Operator", streamCounter), OPERATOR)
    {
      if !isTrackingEnabled {
        return flow;
      }
      streamCounter := Inc32(streamCounter);
      r := Tracked(flow, StreamName(operatorName, "Operator", streamCounter), OPERATOR);
    }

    /** `trackStateFlow`: the state flow itself when tracking is off; otherwise a
        new proxy seeded with the source's current value, after announcing the
        stream and its current value on the bus. */
    method TrackStateFlow(stateFlow: StateCell<T>, name: string := "") returns (r: StateCell<T>)
      modifies this`streamCounter, this`bus
      ensures !isTrackingEnabled ==> r == stateFlow && streamCounter == old(streamCounter) && bus == old(bus)
      ensures isTrackingEnabled ==>
        && fresh(r) && r.value == stateFlow.value
        && streamCounter == Inc32(old(streamCounter))
        && var n := StreamName(name, "StateFlow", streamCounter);
           bus == old(bus) + StampFrom(|old(bus)|, [Started(n, STATE_FLOW), Emission(stateFlow.value, n, STATE_FLOW)])
    {
      if !isTrackingEnabled {
        return stateFlow;
      }
      streamCounter := Inc32(streamCounter);
      var streamName := StreamName(name, "StateFlow", streamCounter);
      Publish(Started(streamName, STATE_FLOW));
      Publish(Emission(stateFlow.value, streamName, STATE_FLOW));
      r := new StateCell(stateFlow.value);
    }

    /** One iteration of the collector `trackStateFlow` launches: the proxy takes
        the source's new value first, then the value is published as an Emission. */
    method ForwardStateValue(source: StateCell<T>, proxy: StateCell<T>, streamName: string)
      modifies proxy, this`bus
      ensures proxy.value == source.value == old(source.value)
      ensures bus == old(bus) + StampFrom(|old(bus)|, [Emission(source.value, streamName, STATE_FLOW)])
    {
      proxy.value := source.value;
      Publish(Emission(proxy.value, streamName, STATE_FLOW));
    }

    /** The collector's `catch`: a failure is published as an Error and not rethrown. */
    method ForwardStateFailure(e: Throwable, streamName: string)
      modifies this`bus
      ensures bus == old(bus) + StampFrom(|old(bus)|, [Error(e, streamName, STATE_FLOW)])
    {
      Publish(Error(e, streamName, STATE_FLOW));
    }

    /** `registerMutableStateFlow`: when tracking is on, remembers the flow under a
        new name and announces it with its current value. */
    method RegisterMutableStateFlow(flow: StateCell<T>, name: string := "")
      modifies this`streamCounter, this`mutableStateFlows, this`bus
      ensures !isTrackingEnabled ==>
        streamCounter == old(streamCounter) && mutableStateFlows == old(mutableStateFlows) && bus == old(bus)
      ensures isTrackingEnabled ==>
        && streamCounter == Inc32(old(streamCounter))
        && var n := StreamName(name, "MutableStateFlow", streamCounter);
           && mutableStateFlows == old(mutableStateFlows)[flow := n]
           && bus == old(bus) + StampFrom(|old(bus)|, [Started(n, STATE_FLOW), Emission(flow.value, n, STATE_FLOW)])
    {
      if !isTrackingEnabled {
        return;
      }
      streamCounter := Inc32(streamCounter);
      var streamName := StreamName(name, "MutableStateFlow", streamCounter);
      mutableStateFlows := mutableStateFlows[flow := streamName];
      Publish(Started(streamName, STATE_FLOW));
      Publish(Emission(flow.value, streamName, STATE_FLOW));
    }

    /** One iteration of the collector `registerMutableStateFlow` launches. */
    method ObserveRegisteredValue(flow: StateCell<T>, streamName: string)
      modifies this`bus
      ensures bus == old(bus) + StampFrom(|old(bus)|, [Emission(flow.value, streamName, STATE_FLOW)])
    {
      Publish(Emission(flow.value, streamName, STATE_FLOW));
    }

    /** `trackLiveData`: when tracking is on, detaches and forgets the observer
        attached by an earlier call for the same LiveData, announces the stream,
        and attaches and registers a new observer. The LiveData is returned. */
    method TrackLiveData(liveData: LiveData<T>, name: string := "") returns (r: LiveData<T>)
      requires Valid()
      modifies this`streamCounter, this`bus, this`liveDataObservers, this`Observers, liveData`observers
      ensures Valid()
      ensures r == liveData
      ensures !isTrackingEnabled ==>
        && streamCounter == old(streamCounter) && bus == old(bus)
        && liveDataObservers == old(liveDataObservers) && liveData.observers == old(liveData.observers)
      ensures isTrackingEnabled ==>
        && streamCounter == Inc32(old(streamCounter))
        && var n := StreamName(name, "LiveData", streamCounter);
           && liveData in liveDataObservers
           && var o := liveDataObservers[liveData];
              && fresh(o) && o.streamName == n
              && bus == old(bus) + StampFrom(|old(bus)|, [Started(n, LIVE_DATA)] + InitialDispatch(liveData.value, o))
              && liveDataObservers == old(liveDataObservers)[liveData := o]
              && liveData.observers ==
                   (if liveData in old(liveDataObservers)
                    then Without(old(liveData.observers), old(liveDataObservers)[liveData])
                    else old(liveData.observers)) + [o]
    {
      if isTrackingEnabled {
        streamCounter := Inc32(streamCounter);
        var streamName := StreamName(name, "LiveData", streamCounter);
        Retrack(liveData, streamName);
      }
      r := liveData;
    }

    /** The body of `trackLiveData` once the name is chosen: the earlier observer
        goes, the stream is announced, and a new observer is attached, which
        receives the current value at once if there is one. */
    method Retrack(liveData: LiveData<T>, streamName: string)
      requires Valid()
      modifies this`bus, this`liveDataObservers, this`Observers, liveData`observers
      ensures Valid()
      ensures liveData in liveDataObservers
      ensures var o := liveDataObservers[liveData];
        && fresh(o) && o.streamName == streamName
        && bus == old(bus) + StampFrom(|old(bus)|, [Started(streamName, LIVE_DATA)] + InitialDispatch(liveData.value, o))
        && liveDataObservers == old(liveDataObservers)[liveData := o]
        && liveData.observers ==
             (if liveData in old(liveDataObservers)
              then Without(old(liveData.observers), old(liveDataObservers)[liveData])
              else old(liveData.observers)) + [o]
    {
      StopTrackingLiveData(liveData);
      Publish(Started(streamName, LIVE_DATA));
      ghost var announced := bus;
      var observer := Attach(liveData, streamName);
      PublishedInTurn(old(bus), announced, bus, [Started(streamName, LIVE_DATA)], InitialDispatch(liveData.value, observer));
    }

    /** Creates an observer for `liveData`, registers it and attaches it last
        (`observeForever`), which delivers the current value to it at once. */
    method Attach(liveData: LiveData<T>, streamName: string) returns (o: Observer<T>)
      requires Valid() && liveData !in liveDataObservers
      modifies this`liveDataObservers, this`Observers, this`bus, liveData`observers
      ensures Valid()
      ensures fresh(o) && o.source == liveData && o.streamName == streamName
      ensures liveDataObservers == old(liveDataObservers)[liveData := o]
      ensures liveData.observers == old(liveData.observers) + [o]
      ensures Observers == old(Observers) + {o}
      ensures bus == old(bus) + StampFrom(|old(bus)|, InitialDispatch(liveData.value, o))
    {
      o := new Observer(liveData, streamName);
      Observers := Observers + {o};
      liveDataObservers := liveDataObservers[liveData := o];
      liveData.observers := liveData.observers + [o];
      if liveData.value.Some? {
        Publish(Emission(liveData.value.value, streamName, LIVE_DATA));
      }
    }

    /** A value set on a LiveData: it becomes the current value, and every attached
        observer launches the publication of an Emission under its stream name, in
        attachment order. */
    method DispatchLiveData(liveData: LiveData<T>, v: T)
      modifies this`bus, liveData`value
      ensures liveData.value == Some(v)
      ensures bus == old(bus) + StampFrom(|old(bus)|, LiveDataEmissions(liveData.observers, v))
    {
      liveData.value := Some(v);
      var i := 0;
      while i < |liveData.observers|
        invariant 0 <= i <= |liveData.observers|
        invariant liveData.value == Some(v)
        invariant bus == old(bus) + StampFrom(|old(bus)|, LiveDataEmissions(liveData.observers[..i], v))
      {
        Publish(Emission(v, liveData.observers[i].streamName, LIVE_DATA));
        assert liveData.observers[..i + 1] == liveData.observers[..i] + [liveData.observers[i]];
        i := i + 1;
      }
      assert liveData.observers[..i] == liveData.observers;
    }

    /** `stopTrackingLiveData`: detaches and forgets the registered observer if there is one. */
    method StopTrackingLiveData(liveData: LiveData<T>)
      requires Valid()
      modifies this`liveDataObservers, liveData`observers
      ensures Valid()
      ensures liveData !in liveDataObservers
      ensures liveDataObservers == old(liveDataObservers) - {liveData}
      ensures liveData.observers ==
        if liveData in old(liveDataObservers)
        then Without(old(liveData.observers), old(liveDataObservers)[liveData])
        else old(liveData.observers)
    {
      if liveData in liveDataObservers {
        liveData.observers := Without(liveData.observers, liveDataObservers[liveData]);
        liveDataObservers := liveDataObservers - {liveData};
      }
    }

    /** `reset`: the counter goes back to zero, every registered observer is
        detached from its LiveData and both registries are emptied; the enabled
        flag, the configuration and the bus stay as they are. */
    method Reset()
      requires Valid()
      modifies this, liveDataObservers.Keys`observers
      ensures Valid()
      ensures streamCounter == 0 && liveDataObservers == map[] && mutableStateFlows == map[]
      ensures isTrackingEnabled == old(isTrackingEnabled) && config == old(config) && bus == old(bus)
      ensures Observers == old(Observers)
      ensures forall ld :: ld in old(liveDataObservers) ==>
        ld.observers == Without(old(ld.observers), old(liveDataObservers)[ld])
    {
      DetachAll();
      streamCounter := 0;
      liveDataObservers := map[];
      mutableStateFlows := map[];
    }

    /** The loop of `reset` over the registry: every registered observer is
        removed from its LiveData, after which no observer the tracker made is attached. */
    method DetachAll()
      requires Valid()
      modifies liveDataObservers.Keys`observers
      ensures forall ld :: ld in liveDataObservers ==>
        ld.observers == Without(old(ld.observers), liveDataObservers[ld])
      ensures forall o :: o in Observers ==> o !in o.source.observers
    {
      var pending := liveDataObservers.Keys;
      while pending != {}
        invariant pending <= liveDataObservers.Keys
        invariant forall ld :: ld in liveDataObservers && ld !in pending ==>
          ld.observers == Without(old(ld.observers), liveDataObservers[ld])
        invariant forall ld :: ld in pending ==> ld.observers == old(ld.observers)
        invariant forall o :: o in Observers ==>
          (o in o.source.observers <==> o.source in pending && liveDataObservers[o.source] == o)
        decreases pending
      {
        var ld :| ld in pending;
        ld.observers := Without(ld.observers, liveDataObservers[ld]);
        pending := pending - {ld};
      }
    }

    /** At most one observer made by this tracker is attached to any LiveData: the registered one. */
    lemma AtMostOneObserver(liveData: LiveData<T>, o1: Observer<T>, o2: Observer<T>)
      requires Valid()
      requires o1 in Observers && o2 in Observers
      requires o1.source == liveData && o2.source == liveData
      requires o1 in liveData.observers && o2 in liveData.observers
      ensures o1 == o2 == liveDataObservers[liveData]
    {
    }

    /** Once the registry is empty (after `reset`), no observer made by this tracker is attached anywhere. */
    lemma NothingAttachedAfterReset(o: Observer<T>)
      requires Valid() && liveDataObservers == map[]
      requires o in Observers
      ensures o !in o.source.observers
    {
    }
  }
}
