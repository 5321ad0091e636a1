/** What collecting a tracked flow does (core/ReactiveStreamTracker.kt,
    `trackFlow` and `trackOperator`): the flow returned by the tracker is
    `flow { publish Started; upstream.catch { publish Error; rethrow }
    .onCompletion { publish Completion or Cancelled }.collect { publish
    Emission; emit } }`. A collection is described as the ordered list of
    what happens (an event published on the bus, a value handed to the
    downstream collector) and how the collection ends. */
module StreamTrace {
  import opened Text
  import opened FlowEvents

  /** A flow: a cold source that yields `values` and then completes or throws
      `failure`, or a source wrapped by the tracker (one or more times). */
  datatype Flow<T> =
    | Source(values: seq<T>, failure: Option<Throwable>)
    | Tracked(upstream: Flow<T>, streamName: string, streamType: StreamType)

  /** The downstream collector: it accepts every value, or it throws `cause`
      right after receiving the value at position `index` (a consumer that
      fails or is cancelled part-way). */
  datatype Collector = AcceptAll | ThrowAt(index: nat, cause: Throwable)

  /** How a collection ends: normally, or with an exception that came from the
      source (upstream) or from the downstream collector. */
  datatype End = Completed | UpstreamFailed(cause: Throwable) | DownstreamFailed(cause: Throwable)

  /** What happens, in order, while a flow is collected. */
  datatype Signal<T> = Publish(event: FlowEvent<T>) | Deliver(value: T)

  datatype Collection<T> = Collection(signals: seq<Signal<T>>, end: End)

  /** The number of tracker layers around the source. */
  function Depth<T>(f: Flow<T>): nat {
    match f
    case Source(_, _) => 0
    case Tracked(up, _, _) => 1 + Depth(up)
  }

  /** The source at the bottom of a chain of tracked flows. */
  function Origin<T>(f: Flow<T>): (s: Flow<T>)
    ensures s.Source?
  {
    match f
    case Source(_, _) => f
    case Tracked(up, _, _) => Origin(up)
  }

  // ---------------------------------------------------------------------
  // Reference behaviour of an untracked source
  // ---------------------------------------------------------------------

  /** The values a collector receives straight from a source. */
  function Received<T>(values: seq<T>, c: Collector): (r: seq<T>)
    ensures |r| <= |values| && r == values[..|r|]
  {
    if c.ThrowAt? && c.index < |values| then values[..c.index + 1] else values
  }

  /** How collecting a source straight ends. */
  function SourceEnd<T>(values: seq<T>, failure: Option<Throwable>, c: Collector): End {
    if c.ThrowAt? && c.index < |values| then DownstreamFailed(c.cause)
    else if failure.Some? then UpstreamFailed(failure.value)
    else Completed
  }

  // ---------------------------------------------------------------------
  // Collection semantics
  // ---------------------------------------------------------------------

  function Delivers<T>(values: seq<T>): (r: seq<Signal<T>>)
    ensures |r| == |values|
    ensures forall i :: 0 <= i < |values| ==> r[i] == Deliver(values[i])
  {
    seq(|values|, i requires 0 <= i < |values| => Deliver(values[i]))
  }

  /** The tracker's `collect { value -> publish Emission(value); emit(value) }`
      applied to everything the upstream does: upstream events pass through,
      each upstream value is announced on the bus and then forwarded. */
  function Relay<T>(s: seq<Signal<T>>, name: string, kind: StreamType): seq<Signal<T>> {
    if s == [] then []
    else
      (match s[0]
       case Publish(e) => [Publish(e)]
       case Deliver(v) => [Publish(Emission(v, name, kind)), Deliver(v)])
      + Relay(s[1..], name, kind)
  }

  /** The tracker's `catch` and `onCompletion` blocks: an exception from upstream
      is published as `Error` and rethrown, after which `onCompletion` sees a
      cause and publishes `Cancelled`; an exception from downstream passes
      `catch` untouched; no cause means `Completion`. */
  function Closing<T>(end: End, name: string, kind: StreamType): seq<Signal<T>> {
    match end
    case Completed => [Publish(Completion(name, kind))]
    case UpstreamFailed(e) => [Publish(Error(e, name, kind)), Publish(Cancelled(name, kind))]
    case DownstreamFailed(_) => [Publish(Cancelled(name, kind))]
  }

  /** Collecting `f` with collector `c`. */
  function Collect<T>(f: Flow<T>, c: Collector): Collection<T> {
    match f
    case Source(values, failure) =>
      Collection(Delivers(Received(values, c)), SourceEnd(values, failure, c))
    case Tracked(up, name, kind) =>
      var inner := Collect(up, c);
      Collection([Publish(Started(name, kind))] + Relay(inner.signals, name, kind)
                    + Closing(inner.end, name, kind),
                  inner.end)
  }

  // ---------------------------------------------------------------------
  // Views of a collection
  // ---------------------------------------------------------------------

  /** The events published on the bus, in order. */
  function Events<T>(s: seq<Signal<T>>): seq<FlowEvent<T>> {
    if s == [] then []
    else (if s[0].Publish? then [s[0].event] else []) + Events(s[1..])
  }

  /** The values the downstream collector receives, in order. */
  function Values<T>(s: seq<Signal<T>>): seq<T> {
    if s == [] then []
    else (if s[0].Deliver? then [s[0].value] else []) + Values(s[1..])
  }

  /** `Emission(v, name, kind)` for every `v` of `values`, in order. */
  function Emissions<T>(values: seq<T>, name: string, kind: StreamType): (r: seq<FlowEvent<T>>)
    ensures |r| == |values|
    ensures forall i :: 0 <= i < |values| ==> r[i] == Emission(values[i], name, kind)
  {
    seq(|values|, i requires 0 <= i < |values| => Emission(values[i], name, kind))
  }

  function CountTerminals<T>(events: seq<FlowEvent<T>>): nat {
    if events == [] then 0
    else (if IsTerminal(events[0]) then 1 else 0) + CountTerminals(events[1..])
  }

  /** Every value handed downstream is immediately preceded by its `Emission` on the bus. */
  ghost predicate AnnouncedBeforeDelivery<T>(s: seq<Signal<T>>, name: string, kind: StreamType) {
    forall j :: 0 <= j < |s| && s[j].Deliver? ==> j > 0 && s[j - 1] == Publish(Emission(s[j].value, name, kind))
  }

  // ---------------------------------------------------------------------
  // Distribution lemmas
  // ---------------------------------------------------------------------

  lemma {:induction false} EventsAppend<T>(a: seq<Signal<T>>, b: seq<Signal<T>>)
    ensures Events(a + b) == Events(a) + Events(b)
    decreases |a|
  {
    if a == [] {
      assert a + b == b;
    } else {
      assert (a + b)[0] == a[0];
      assert (a + b)[1..] == a[1..] + b;
      EventsAppend(a[1..], b);
    }
  }

  lemma {:induction false} ValuesAppend<T>(a: seq<Signal<T>>, b: seq<Signal<T>>)
    ensures Values(a + b) == Values(a) + Values(b)
    decreases |a|
  {
    if a == [] {
      assert a + b == b;
    } else {
      assert (a + b)[0] == a[0];
      assert (a + b)[1..] == a[1..] + b;
      ValuesAppend(a[1..], b);
    }
  }

  lemma {:induction false} CountTerminalsAppend<T>(a: seq<FlowEvent<T>>, b: seq<FlowEvent<T>>)
    ensures CountTerminals(a + b) == CountTerminals(a) + CountTerminals(b)
    decreases |a|
  {
    if a == [] {
      assert a + b == b;
    } else {
      assert (a + b)[0] == a[0];
      assert (a + b)[1..] == a[1..] + b;
      CountTerminalsAppend(a[1..], b);
    }
  }

  lemma {:induction false} DeliversViews<T>(values: seq<T>)
    ensures Values(Delivers(values)) == values
    ensures Events(Delivers(values)) == []
    decreases |values|
  {
    if values != [] {
      assert Delivers(values)[1..] == Delivers(values[1..]);
      DeliversViews(values[1..]);
    }
  }

  /** The closing blocks hand nothing downstream and publish exactly one terminal event. */
  lemma ClosingViews<T>(end: End, name: string, kind: StreamType)
    ensures Values(Closing<T>(end, name, kind)) == []
    ensures Events(Closing<T>(end, name, kind)) == match end
      case Completed => [Completion(name, kind)]
      case UpstreamFailed(e) => [Error(e, name, kind), Cancelled(name, kind)]
      case DownstreamFailed(_) => [Cancelled(name, kind)]
    ensures CountTerminals(Events(Closing<T>(end, name, kind))) == 1
  {
    var c := Closing<T>(end, name, kind);
    match end
    case Completed =>
      assert c[1..] == [];
    case UpstreamFailed(e) =>
      assert c[1..] == [Publish(Cancelled(name, kind))];
      assert c[1..][1..] == [];
      assert Values(c[1..]) == [];
      assert Events(c[1..]) == [Cancelled(name, kind)];
      assert CountTerminals([FlowEvent<T>.Cancelled(name, kind)]) == 1;
    case DownstreamFailed(_) =>
      assert c[1..] == [];
  }

  /** Relaying forwards exactly the upstream values, in order. */
  lemma {:induction false} RelayValues<T>(s: seq<Signal<T>>, name: string, kind: StreamType)
    ensures Values(Relay(s, name, kind)) == Values(s)
    decreases |s|
  {
    if s != [] {
      var head := match s[0]
        case Publish(e) => [Publish(e)]
        case Deliver(v) => [Publish(Emission(v, name, kind)), Deliver(v)];
      ValuesAppend(head, Relay(s[1..], name, kind));
      RelayValues(s[1..], name, kind);
      assert s == [s[0]] + s[1..];
      ValuesAppend([s[0]], s[1..]);
    }
  }

  /** Relaying a plain run of values announces each one, in order. */
  lemma {:induction false} RelayDeliversEvents<T>(values: seq<T>, name: string, kind: StreamType)
    ensures Events(Relay(Delivers(values), name, kind)) == Emissions(values, name, kind)
    decreases |values|
  {
    if values != [] {
      var s := Delivers(values);
      assert s[1..] == Delivers(values[1..]);
      var head: seq<Signal<T>> := [Publish(Emission(values[0], name, kind)), Deliver(values[0])];
      assert Relay(s, name, kind) == head + Relay(s[1..], name, kind);
      EventsAppend(head, Relay(s[1..], name, kind));
      RelayDeliversEvents(values[1..], name, kind);
      assert Events(head) == [Emission(values[0], name, kind)];
      assert Emissions(values, name, kind) == [Emission(values[0], name, kind)] + Emissions(values[1..], name, kind);
    }
  }

  /** Relaying adds no terminal event of its own. */
  lemma {:induction false} RelayTerminals<T>(s: seq<Signal<T>>, name: string, kind: StreamType)
    ensures CountTerminals(Events(Relay(s, name, kind))) == CountTerminals(Events(s))
    ensures forall e :: e in Events(Relay(s, name, kind)) && IsTerminal(e) ==> e in Events(s)
    decreases |s|
  {
    if s != [] {
      var head := match s[0]
        case Publish(e) => [Publish(e)]
        case Deliver(v) => [Publish(Emission(v, name, kind)), Deliver(v)];
      EventsAppend(head, Relay(s[1..], name, kind));
      CountTerminalsAppend(Events(head), Events(Relay(s[1..], name, kind)));
      RelayTerminals(s[1..], name, kind);
      assert s == [s[0]] + s[1..];
      EventsAppend([s[0]], s[1..]);
      CountTerminalsAppend(Events([s[0]]), Events(s[1..]));
    }
  }

  lemma AnnouncedAppend<T>(a: seq<Signal<T>>, b: seq<Signal<T>>, name: string, kind: StreamType)
    requires AnnouncedBeforeDelivery(a, name, kind) && AnnouncedBeforeDelivery(b, name, kind)
    ensures AnnouncedBeforeDelivery(a + b, name, kind)
  {
    forall j | 0 <= j < |a + b| && (a + b)[j].Deliver?
      ensures j > 0 && (a + b)[j - 1] == Publish(Emission((a + b)[j].value, name, kind))
    {
      if j >= |a| {
        assert (a + b)[j] == b[j - |a|];
        assert j - |a| > 0;
        assert (a + b)[j - 1] == b[j - 1 - |a|];
      } else {
        assert (a + b)[j - 1] == a[j - 1];
      }
    }
  }

  lemma {:induction false} RelayAnnounces<T>(s: seq<Signal<T>>, name: string, kind: StreamType)
    ensures AnnouncedBeforeDelivery(Relay(s, name, kind), name, kind)
    ensures Relay(s, name, kind) == [] || Relay(s, name, kind)[0].Publish?
    decreases |s|
  {
    if s != [] {
      var head := match s[0]
        case Publish(e) => [Publish(e)]
        case Deliver(v) => [Publish(Emission(v, name, kind)), Deliver(v)];
      RelayAnnounces(s[1..], name, kind);
      AnnouncedAppend(head, Relay(s[1..], name, kind), name, kind);
    }
  }

  // ---------------------------------------------------------------------
  // Properties of a tracked collection
  // ---------------------------------------------------------------------

  /** Tracking is transparent: whatever the nesting, the downstream collector
      receives exactly what it would receive from the bare source, in order,
      and the collection ends the same way, rethrowing the same exception. */
  lemma {:induction false} CollectIsTransparent<T>(f: Flow<T>, c: Collector)
    ensures Values(Collect(f, c).signals) == Received(Origin(f).values, c)
    ensures Collect(f, c).end == SourceEnd(Origin(f).values, Origin(f).failure, c)
  {
    match f
    case Source(values, failure) =>
      DeliversViews(Received(values, c));
    case Tracked(up, name, kind) =>
      var inner := Collect(up, c);
      CollectIsTransparent(up, c);
      var start: seq<Signal<T>> := [Publish(Started(name, kind))];
      ValuesAppend(start, Relay(inner.signals, name, kind));
      ValuesAppend(start + Relay(inner.signals, name, kind), Closing(inner.end, name, kind));
      RelayValues(inner.signals, name, kind);
      ClosingViews<T>(inner.end, name, kind);
  }

  /** Tracking a source that yields v1..vn and then completes or fails, the bus
      receives Started, Emission(v1)..Emission(vk) for the k values the
      collector took, then Completion when nothing was thrown, Error(e) and
      Cancelled when the source threw e, and Cancelled alone when the
      collector threw. */
  lemma TrackedSourceEvents<T>(values: seq<T>, failure: Option<Throwable>, name: string, kind: StreamType, c: Collector)
    ensures var r := Collect(Tracked(Source(values, failure), name, kind), c);
      Events(r.signals) == [Started(name, kind)] + Emissions(Received(values, c), name, kind)
                           + Events(Closing(r.end, name, kind))
  {
    var got := Received(values, c);
    var end := SourceEnd(values, failure, c);
    var start: seq<Signal<T>> := [Publish(Started(name, kind))];
    var relayed := Relay(Delivers(got), name, kind);
    EventsAppend(start, relayed);
    EventsAppend(start + relayed, Closing(end, name, kind));
    RelayDeliversEvents(got, name, kind);
    assert Events(start) == [Started(name, kind)];
  }

  /** The scenario of a source yielding v1..vn and completing: Started, Emission(v1)..Emission(vn),
      Completion, and the collector receives v1..vn. */
  lemma CompletingSourceTrace<T>(values: seq<T>, name: string, kind: StreamType)
    ensures var r := Collect(Tracked(Source(values, None), name, kind), AcceptAll);
      && Events(r.signals) == [Started(name, kind)] + Emissions(values, name, kind) + [Completion(name, kind)]
      && Values(r.signals) == values
      && r.end == Completed
  {
    TrackedSourceEvents(values, None, name, kind, AcceptAll);
    ClosingViews<T>(Completed, name, kind);
    CollectIsTransparent(Tracked(Source(values, None), name, kind), AcceptAll);
  }

  /** The scenario of a source failing with e after v1..vk: Started, Emission(v1)..Emission(vk),
      Error(e), Cancelled, and e is rethrown to the collector. */
  lemma FailingSourceTrace<T>(values: seq<T>, e: Throwable, name: string, kind: StreamType)
    ensures var r := Collect(Tracked(Source(values, Some(e)), name, kind), AcceptAll);
      && Events(r.signals) == [Started(name, kind)] + Emissions(values, name, kind)
                              + [Error(e, name, kind), Cancelled(name, kind)]
      && Values(r.signals) == values
      && r.end == UpstreamFailed(e)
  {
    TrackedSourceEvents(values, Some(e), name, kind, AcceptAll);
    ClosingViews<T>(UpstreamFailed(e), name, kind);
    CollectIsTransparent(Tracked(Source(values, Some(e)), name, kind), AcceptAll);
  }

  /** Every `Completion` in `events` means the collection completed and every `Cancelled` that it did not. */
  ghost predicate TerminalsAgree<T>(events: seq<FlowEvent<T>>, end: End) {
    forall e :: e in events && IsTerminal(e) ==> (e.Completion? <==> end == Completed)
  }

  /** Each tracker layer publishes exactly one terminal event per collection. */
  lemma {:induction false} OneTerminalPerLayer<T>(f: Flow<T>, c: Collector)
    ensures CountTerminals(Events(Collect(f, c).signals)) == Depth(f)
  {
    match f
    case Source(values, failure) =>
      DeliversViews(Received(values, c));
    case Tracked(up, name, kind) =>
      var inner := Collect(up, c);
      OneTerminalPerLayer(up, c);
      var start: seq<Signal<T>> := [Publish(Started(name, kind))];
      var relayed := Relay(inner.signals, name, kind);
      var closing := Closing(inner.end, name, kind);
      EventsAppend(start, relayed);
      EventsAppend(start + relayed, closing);
      CountTerminalsAppend(Events(start), Events(relayed));
      CountTerminalsAppend(Events(start) + Events(relayed), Events(closing));
      RelayTerminals(inner.signals, name, kind);
      ClosingViews<T>(inner.end, name, kind);
      assert Events(start) == [Started(name, kind)];
  }

  /** All the terminal events of one collection agree: `Completion` exactly when
      nothing was thrown, `Cancelled` for any cause, never both. */
  lemma {:induction false} TerminalsMatchEnd<T>(f: Flow<T>, c: Collector)
    ensures TerminalsAgree(Events(Collect(f, c).signals), Collect(f, c).end)
  {
    match f
    case Source(values, failure) =>
      DeliversViews(Received(values, c));
    case Tracked(up, name, kind) =>
      var inner := Collect(up, c);
      TerminalsMatchEnd(up, c);
      var start: seq<Signal<T>> := [Publish(Started(name, kind))];
      var relayed := Relay(inner.signals, name, kind);
      var closing := Closing(inner.end, name, kind);
      EventsAppend(start, relayed);
      EventsAppend(start + relayed, closing);
      RelayTerminals(inner.signals, name, kind);
      ClosingViews<T>(inner.end, name, kind);
      assert Events(start) == [Started(name, kind)];
  }

  /** A tracked flow publishes `Started` first, ends the bus trace with its own
      terminal event, and announces every value before handing it downstream. */
  lemma TrackedShape<T>(up: Flow<T>, name: string, kind: StreamType, c: Collector)
    ensures var r := Collect(Tracked(up, name, kind), c);
      && r.signals[0] == Publish(Started(name, kind))
      && r.signals[|r.signals| - 1] == Publish(if r.end.Completed? then Completion(name, kind) else Cancelled(name, kind))
      && AnnouncedBeforeDelivery(r.signals, name, kind)
  {
    var inner := Collect(up, c);
    var start: seq<Signal<T>> := [Publish(Started(name, kind))];
    var relayed := Relay(inner.signals, name, kind);
    var closing := Closing(inner.end, name, kind);
    RelayAnnounces(inner.signals, name, kind);
    AnnouncedAppend(start, relayed, name, kind);
    AnnouncedAppend(start + relayed, closing, name, kind);
  }
}
