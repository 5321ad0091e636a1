/** The events a tracked stream publishes (model/FlowEvent.kt) and the stream
    categories they are tagged with (model/StreamType.kt). */
module FlowEvents {
  import opened Text

  /** The category of a tracked stream. `OPERATOR` is the category the tracker
      gives to `trackOperator` streams; the repository's enum does not declare it. */
  datatype StreamType = FLOW | STATE_FLOW | LIVE_DATA | RX_OBSERVABLE | RX_SUBJECT | CHANNEL | OPERATOR

  /** A Kotlin `Throwable`. It does not override `equals`, so two throwables are
      equal only when they are the same object; `identity` names the object. */
  datatype Throwable = Throwable(identity: nat, message: Option<string>)

  /** The five event variants with the constructor arguments each takes in the
      source; the two stream fields default to "" and FLOW as there. Only
      `Emission` carries a value and only `Error` a throwable. */
  datatype FlowEvent<T> =
    | Emission(value: T, streamName: string := "", streamType: StreamType := FLOW)
    | Error(throwable: Throwable, streamName: string := "", streamType: StreamType := FLOW)
    | Completion(streamName: string := "", streamType: StreamType := FLOW)
    | Started(streamName: string := "", streamType: StreamType := FLOW)
    | Cancelled(streamName: string := "", streamType: StreamType := FLOW)

  /** The event object once constructed: the base class gives it a random UUID
      `id` and the wall-clock `timestamp` at construction, whatever its variant. */
  datatype Stamped<T> = Stamped(id: string, timestamp: int, event: FlowEvent<T>)

  /** The identifier and creation time the environment hands to the next constructed event. */
  datatype Stamp = Stamp(id: string, timestamp: int)

  /** Constructs the event object for `event` with the given identifier and time. */
  function Construct<T>(event: FlowEvent<T>, stamp: Stamp): (s: Stamped<T>)
    ensures s.event == event
    ensures s.id == stamp.id && s.timestamp == stamp.timestamp
  {
    Stamped(stamp.id, stamp.timestamp, event)
  }

  predicate IsTerminal<T>(e: FlowEvent<T>) {
    e.Completion? || e.Cancelled?
  }

  /** Kotlin `==` on two event objects. `Emission` and `Error` are data classes:
      equal when their constructor properties are equal, whatever their `id` and
      `timestamp`. `Completion`, `Started` and `Cancelled` are plain classes:
      equal only to themselves (the same object, hence the same `id`). */
  predicate KotlinEquals<T(==)>(a: Stamped<T>, b: Stamped<T>) {
    if (a.event.Emission? && b.event.Emission?) || (a.event.Error? && b.event.Error?)
    then a.event == b.event
    else a == b
  }

  /** Every variant takes the defaults "" and FLOW when no stream is named. */
  lemma DefaultStream<T>(v: T, e: Throwable)
    ensures var defaults := [FlowEvent.Emission(v), FlowEvent.Error(e), FlowEvent<T>.Completion(),
                             FlowEvent<T>.Started(), FlowEvent<T>.Cancelled()];
      forall i :: 0 <= i < |defaults| ==> defaults[i].streamName == "" && defaults[i].streamType == FLOW
  {
  }

  /** Data-class equality ignores the construction-time stamp: two `Emission`s (or
      `Error`s) constructed from the same fields are equal. */
  lemma DataClassEqualityIgnoresStamp<T>(e: FlowEvent<T>, s1: Stamp, s2: Stamp)
    requires e.Emission? || e.Error?
    ensures KotlinEquals(Construct(e, s1), Construct(e, s2))
  {
  }

  /** Two separately constructed `Completion`, `Started` or `Cancelled` objects are never
      equal, even for the same stream; each is equal to itself. */
  lemma PlainClassEqualityIsIdentity<T>(e: FlowEvent<T>, s1: Stamp, s2: Stamp)
    requires e.Completion? || e.Started? || e.Cancelled?
    requires s1.id != s2.id
    ensures !KotlinEquals(Construct(e, s1), Construct(e, s2))
    ensures KotlinEquals(Construct(e, s1), Construct(e, s1))
  {
  }

  /** Kotlin `==` is an equivalence on events, and events of different variants are never equal. */
  lemma KotlinEqualsIsEquivalence<T>(a: Stamped<T>, b: Stamped<T>, c: Stamped<T>)
    ensures KotlinEquals(a, a)
    ensures KotlinEquals(a, b) ==> KotlinEquals(b, a)
    ensures KotlinEquals(a, b) && KotlinEquals(b, c) ==> KotlinEquals(a, c)
    ensures KotlinEquals(a, b) ==> a.event.streamName == b.event.streamName && a.event.streamType == b.event.streamType
    ensures KotlinEquals(a, b) ==>
      (a.event.Emission? <==> b.event.Emission?) && (a.event.Error? <==> b.event.Error?)
      && (a.event.Completion? <==> b.event.Completion?) && (a.event.Started? <==> b.event.Started?)
  {
  }
}
