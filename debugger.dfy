/** The debugger bridge (plugin/DebuggerHelper.kt): a connect/disconnect state
    machine holding the breakpoints set on streams while a session is open.
    The breakpoint map is a `LinkedHashMap`, so it is modelled as the map plus
    the order in which its keys were first inserted. */
module Debugger {
  import opened Text

  /** `StreamBreakpoint`. */
  datatype StreamBreakpoint = StreamBreakpoint(id: string, name: string, kind: string, condition: Option<string>)

  /** The breakpoint identifier: the prefix, the stream name and the time in milliseconds, joined by dashes. */
  function BreakpointId(prefix: string, name: string, millis: int64): string {
    prefix + "-" + name + "-" + IntToString(millis as int)
  }

  /** The keys without `k`. */
  function RemoveKey(keys: seq<string>, k: string): (r: seq<string>)
    ensures k !in r
    ensures forall x :: x in r <==> x in keys && x != k
    ensures |r| <= |keys|
  {
    if keys == [] then []
    else (if keys[0] == k then [] else [keys[0]]) + RemoveKey(keys[1..], k)
  }

  /** Removing a key from a list without repetitions leaves a list without repetitions. */
  lemma {:induction false} RemoveKeyDistinct(keys: seq<string>, k: string)
    requires Distinct(keys)
    ensures Distinct(RemoveKey(keys, k))
    decreases |keys|
  {
    if keys != [] {
      assert Distinct(keys[1..]);
      RemoveKeyDistinct(keys[1..], k);
      var rest := RemoveKey(keys[1..], k);
      if keys[0] != k {
        assert keys[0] !in keys[1..];
        assert keys[0] !in rest;
        assert RemoveKey(keys, k) == [keys[0]] + rest;
      }
    }
  }

  /** Removing a key works piece by piece: the order of the other keys is kept. */
  lemma {:induction false} RemoveKeyAppend(a: seq<string>, b: seq<string>, k: string)
    ensures RemoveKey(a + b, k) == RemoveKey(a, k) + RemoveKey(b, k)
    decreases |a|
  {
    if a != [] {
      assert (a + b)[1..] == a[1..] + b;
      RemoveKeyAppend(a[1..], b, k);
    } else {
      assert a + b == b;
    }
  }

  /** A key that is not there is removed by leaving the list as it is. */
  lemma {:induction false} RemoveKeyAbsent(keys: seq<string>, k: string)
    requires k !in keys
    ensures RemoveKey(keys, k) == keys
    decreases |keys|
  {
    if keys != [] {
      RemoveKeyAbsent(keys[1..], k);
      assert keys == [keys[0]] + keys[1..];
    }
  }

  predicate Distinct(keys: seq<string>) {
    forall i, j :: 0 <= i < j < |keys| ==> keys[i] != keys[j]
  }

  class DebuggerHelper {
    var isConnected: bool
    var debugSessionId: Option<string>
    var breakpoints: map<string, StreamBreakpoint>
    /** The keys of `breakpoints` in insertion order. */
    var order: seq<string>

    /** Disconnected means no session and no breakpoints; every breakpoint is stored under its own identifier. */
    ghost predicate Valid()
      reads this
    {
      && (isConnected <==> debugSessionId.Some?)
      && (!isConnected ==> breakpoints == map[] && order == [])
      && (forall k :: k in breakpoints ==> breakpoints[k].id == k)
      && Distinct(order)
      && (forall k :: k in order <==> k in breakpoints)
    }

    constructor ()
      ensures Valid()
      ensures !isConnected && debugSessionId == None && breakpoints == map[] && order == []
    {
      isConnected := false;
      debugSessionId := None;
      breakpoints := map[];
      order := [];
    }

    /** `connect`: ignored while connected; otherwise opens the session. */
    method Connect(sessionId: string)
      requires Valid()
      modifies this
      ensures Valid()
      ensures old(isConnected) ==>
        isConnected && debugSessionId == old(debugSessionId) && breakpoints == old(breakpoints) && order == old(order)
      ensures !old(isConnected) ==>
        isConnected && debugSessionId == Some(sessionId) && breakpoints == map[] && order == []
    {
      if isConnected {
        return;
      }
      debugSessionId := Some(sessionId);
      isConnected := true;
    }

    /** `disconnect`: ignored while disconnected; otherwise drops every breakpoint and the session. */
    method Disconnect()
      requires Valid()
      modifies this
      ensures Valid()
      ensures !isConnected && debugSessionId == None && breakpoints == map[] && order == []
    {
      if !isConnected {
        return;
      }
      breakpoints := map[];
      order := [];
      debugSessionId := None;
      isConnected := false;
    }

    /** `streamBreakpoints[id] = b`: a new key goes last, an existing key keeps its place. */
    method Put(b: StreamBreakpoint)
      requires Valid() && isConnected
      modifies this`breakpoints, this`order
      ensures Valid()
      ensures breakpoints == old(breakpoints)[b.id := b]
      ensures order == if b.id in old(breakpoints) then old(order) else old(order) + [b.id]
    {
      if b.id !in breakpoints {
        order := order + [b.id];
      }
      breakpoints := breakpoints[b.id := b];
    }

    /** `watchFlow`: while connected, a breakpoint of type "Flow" without condition,
        keyed by the name and the current time `millis`. */
    method WatchFlow(name: string, millis: int64)
      requires Valid()
      modifies this`breakpoints, this`order
      ensures Valid()
      ensures !isConnected ==> breakpoints == old(breakpoints) && order == old(order)
      ensures isConnected ==>
        var id := BreakpointId("flow", name, millis);
        && breakpoints == old(breakpoints)[id := StreamBreakpoint(id, name, "Flow", None)]
        && order == if id in old(breakpoints) then old(order) else old(order) + [id]
    {
      if !isConnected {
        return;
      }
      var id := BreakpointId("flow", name, millis);
      Put(StreamBreakpoint(id, name, "Flow", None));
    }

    /** `watchStateFlow`: as `watchFlow`, with type "StateFlow" and the given condition. */
    method WatchStateFlow(name: string, condition: Option<string>, millis: int64)
      requires Valid()
      modifies this`breakpoints, this`order
      ensures Valid()
      ensures !isConnected ==> breakpoints == old(breakpoints) && order == old(order)
      ensures isConnected ==>
        var id := BreakpointId("stateflow", name, millis);
        && breakpoints == old(breakpoints)[id := StreamBreakpoint(id, name, "StateFlow", condition)]
        && order == if id in old(breakpoints) then old(order) else old(order) + [id]
    {
      if !isConnected {
        return;
      }
      var id := BreakpointId("stateflow", name, millis);
      Put(StreamBreakpoint(id, name, "StateFlow", condition));
    }

    /** `removeBreakpoint`: deletes exactly that breakpoint when connected and present;
        the other breakpoints keep their insertion order. */
    method RemoveBreakpoint(id: string)
      requires Valid()
      modifies this`breakpoints, this`order
      ensures Valid()
      ensures breakpoints == old(breakpoints) - {id}
      ensures order == RemoveKey(old(order), id)
    {
      if !isConnected || id !in breakpoints {
        RemoveKeyAbsent(order, id);
        return;
      }
      RemoveKeyDistinct(order, id);
      order := RemoveKey(order, id);
      breakpoints := breakpoints - {id};
    }

    /** `getActiveBreakpoints`: the stored breakpoints, in insertion order. */
    method GetActiveBreakpoints() returns (r: seq<StreamBreakpoint>)
      requires Valid()
      ensures |r| == |order| == |breakpoints|
      ensures forall b :: b in r <==> b in breakpoints.Values
      ensures forall i :: 0 <= i < |r| ==> r[i] == breakpoints[order[i]]
    {
      r := [];
      var i := 0;
      while i < |order|
        invariant 0 <= i <= |order|
        invariant |r| == i
        invariant forall j :: 0 <= j < i ==> order[j] in breakpoints && r[j] == breakpoints[order[j]]
      {
        r := r + [breakpoints[order[i]]];
        i := i + 1;
      }
      DistinctKeysCount(order, breakpoints.Keys);
      forall b | b in breakpoints.Values
        ensures b in r
      {
        var k :| k in breakpoints && breakpoints[k] == b;
        var j :| 0 <= j < |order| && order[j] == k;
        assert r[j] == b;
      }
    }
  }

  /** A repetition-free list of exactly the elements of a set is as long as the set is large. */
  lemma {:induction false} DistinctKeysCount(keys: seq<string>, s: set<string>)
    requires Distinct(keys)
    requires forall k :: k in keys <==> k in s
    ensures |keys| == |s|
    decreases |keys|
  {
    if keys != [] {
      assert keys[0] in s;
      assert forall k :: k in keys[1..] <==> k in s - {keys[0]} by {
        forall k ensures k in keys[1..] <==> k in s - {keys[0]} {
          if k in keys[1..] {
            var j :| 0 <= j < |keys[1..]| && keys[1..][j] == k;
            assert keys[j + 1] == k;
          }
          if k in s - {keys[0]} {
            assert k in keys;
            var j :| 0 <= j < |keys| && keys[j] == k;
            assert j != 0;
            assert keys[1..][j - 1] == k;
          }
        }
      }
      DistinctKeysCount(keys[1..], s - {keys[0]});
    } else {
      assert forall k :: k !in s;
      assert s == {};
    }
  }

  /** A Flow breakpoint never replaces a StateFlow breakpoint: their identifiers differ. */
  lemma FlowAndStateFlowIdsDiffer(n1: string, t1: int64, n2: string, t2: int64)
    ensures BreakpointId("flow", n1, t1) != BreakpointId("stateflow", n2, t2)
  {
    assert BreakpointId("flow", n1, t1)[0] == 'f';
    assert BreakpointId("stateflow", n2, t2)[0] == 's';
  }

  /** Two breakpoints set on the same stream at different times have different identifiers. */
  lemma SameStreamDifferentTimes(prefix: string, name: string, t1: int64, t2: int64)
    requires t1 != t2
    ensures BreakpointId(prefix, name, t1) != BreakpointId(prefix, name, t2)
  {
    var p := prefix + "-" + name + "-";
    assert BreakpointId(prefix, name, t1) == p + IntToString(t1 as int);
    assert BreakpointId(prefix, name, t2) == p + IntToString(t2 as int);
    if BreakpointId(prefix, name, t1) == BreakpointId(prefix, name, t2) {
      assert (p + IntToString(t1 as int))[|p|..] == IntToString(t1 as int);
      assert (p + IntToString(t2 as int))[|p|..] == IntToString(t2 as int);
      IntToStringInjective(t1 as int, t2 as int);
    }
  }

  /** A session as a sequence of calls: a second `connect` keeps the first session,
      breakpoints exist only while connected, and `disconnect` drops them all. */
  method SessionScenario(name: string, t1: int64, t2: int64) returns (during: nat, after: nat, session: Option<string>)
    requires t1 != t2
    ensures during == 2 && after == 0 && session == Some("first")
  {
    var d := new DebuggerHelper();
    d.WatchFlow(name, t1);
    d.Connect("first");
    d.Connect("second");
    session := d.debugSessionId;
    d.WatchFlow(name, t1);
    d.WatchFlow(name, t2);
    SameStreamDifferentTimes("flow", name, t1, t2);
    var active := d.GetActiveBreakpoints();
    during := |active|;
    d.Disconnect();
    active := d.GetActiveBreakpoints();
    after := |active|;
  }
}
