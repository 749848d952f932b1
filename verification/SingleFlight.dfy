/** The single-flight group: callers with the same key share one run of the operation. The steps of
    do and doDetached, under any interleaving of callers, runs and cancelled contexts. */
module SingleFlight {
  import opened Options
  type Key = string
  type CallId = nat
  type CallerId = nat
  /** The value and error an operation ends with. */
  type Result = nat

  /** result is written by the run before done is closed. */
  datatype Call = Call(key: Key, result: Option<Result>, done: bool)

  /** Running: inside do, executing the operation itself. Waiting: selecting on the call and the
      context. Returned with the call whose result was read, or Cancelled. */
  datatype Caller =
    | Entering(key: Key, detached: bool)
    | Running(call: CallId)
    | Waiting(call: CallId)
    | Returned(call: CallId, read: Option<Result>)
    | Cancelled

  datatype World = World(registry: map<Key, CallId>, calls: seq<Call>, callers: map<CallerId, Caller>)

  const EMPTY := World(map[], [], map[])

  /** Enter is the first locked section of either method, Write the end of the operation, Close the
      second locked section, Return a caller finding done closed, Cancel one finding its context done. */
  datatype Action =
    | Begin(c: CallerId, key: Key, detached: bool)
    | Enter(c: CallerId)
    | Write(call: CallId, result: Result)
    | Close(call: CallId)
    | Return(c: CallerId)
    | Cancel(c: CallerId)

  function Registered(registry: map<Key, CallId>, key: Key, made: CallId): map<Key, CallId> {
    if key in registry then registry else registry[key := made]
  }

  /** The group's map, as the two locked sections change it. */
  class RepoOperationGroup {
    var calls: map<Key, CallId>

    constructor ()
      ensures calls == map[]
    {
      calls := map[];
    }

    /** Joins the registered call or registers the given one. */
    method Join(key: Key, made: CallId) returns (call: CallId, registered: bool)
      modifies this
      ensures registered <==> key !in old(calls)
      ensures calls == Registered(old(calls), key, made) && key in calls && call == calls[key]
    {
      if key in calls {
        return calls[key], false;
      }
      calls := calls[key := made];
      return made, true;
    }

    method Forget(key: Key)
      modifies this
      ensures calls == old(calls) - {key}
    {
      calls := calls - {key};
    }
  }

  function EnterGroup(w: World, c: CallerId): World
    requires c in w.callers && w.callers[c].Entering?
  {
    var (key, detached) := (w.callers[c].key, w.callers[c].detached);
    var registry := Registered(w.registry, key, |w.calls|);
    if key in w.registry then w.(callers := w.callers[c := Waiting(w.registry[key])])
    else World(registry, w.calls + [Call(key, None, false)],
               w.callers[c := if detached then Waiting(|w.calls|) else Running(|w.calls|)])
  }

  /** A caller in do returns by itself after its own run; a waiter when it finds done closed. */
  function Leave(w: World, c: CallerId, call: CallId): World
    requires call < |w.calls|
  {
    if w.calls[call].done then w.(callers := w.callers[c := Returned(call, w.calls[call].result)]) else w
  }

  function Next(w: World, a: Action): World {
    match a
    case Begin(c, key, detached) => if c in w.callers then w else w.(callers := w.callers[c := Entering(key, detached)])
    case Enter(c) => if c in w.callers && w.callers[c].Entering? then EnterGroup(w, c) else w
    case Write(x, result) =>
      if x < |w.calls|
        && w.calls[x].result == None then w.(calls := w.calls[x := w.calls[x].(result := Some(result))]) else w
    case Close(x) =>
      if x < |w.calls| && w.calls[x].result.Some? && !w.calls[x].done then
        w.(registry := w.registry - {w.calls[x].key}, calls := w.calls[x := w.calls[x].(done := true)])
      else w
    case Return(c) =>
      if c in w.callers && (w.callers[c].Waiting? || w.callers[c].Running?) && w.callers[c].call < |w.calls|
      then Leave(w, c, w.callers[c].call) else w
    case Cancel(c) =>
      if c in w.callers && (w.callers[c].Waiting? || (w.callers[c].Entering? && w.callers[c].detached))
      then w.(callers := w.callers[c := Cancelled]) else w
  }

  function Exec(acts: seq<Action>): World {
    if acts == [] then EMPTY else Next(Exec(acts[..|acts| - 1]), acts[|acts| - 1])
  }

  /** A run between its registration and the closing of its call. */
  predicate Active(w: World, x: CallId) {
    x < |w.calls| && !w.calls[x].done
  }

  predicate Attached(r: Caller) {
    r.Running? || r.Waiting? || r.Returned?
  }

  ghost predicate Inv(w: World) {
    && (forall x | 0 <= x < |w.calls| && !w.calls[x].done ::
      w.calls[x].key in w.registry && w.registry[w.calls[x].key] == x)
    && (forall k | k in w.registry ::
      w.registry[k] < |w.calls| && w.calls[w.registry[k]].key == k && !w.calls[w.registry[k]].done)
    && (forall x | 0 <= x < |w.calls| && w.calls[x].done :: w.calls[x].result.Some?)
    && (forall c | c in w.callers && Attached(w.callers[c]) :: w.callers[c].call < |w.calls|)
    && (forall c | c in w.callers && w.callers[c].Returned? ::
      w.calls[w.callers[c].call].done && w.callers[c].read == w.calls[w.callers[c].call].result)
  }

  lemma EnterKeeps(w: World, c: CallerId)
    requires Inv(w) && c in w.callers && w.callers[c].Entering?
    ensures Inv(EnterGroup(w, c))
  {
  }

  lemma WriteKeeps(w: World, x: CallId, result: Result)
    requires Inv(w)
    ensures Inv(Next(w, Write(x, result)))
  {
  }

  lemma CloseKeeps(w: World, x: CallId)
    requires Inv(w)
    ensures Inv(Next(w, Close(x)))
  {
  }

  lemma InvStep(w: World, a: Action)
    requires Inv(w)
    ensures Inv(Next(w, a))
  {
    match a
    case Enter(c) => if c in w.callers && w.callers[c].Entering? { EnterKeeps(w, c); }
    case Write(x, result) => WriteKeeps(w, x, result);
    case Close(x) => CloseKeeps(w, x);
    case _ =>
  }

  lemma {:induction false} InvAlways(acts: seq<Action>)
    ensures Inv(Exec(acts))
  {
    if acts != [] {
      InvAlways(acts[..|acts| - 1]);
      InvStep(Exec(acts[..|acts| - 1]), acts[|acts| - 1]);
    }
  }

  /** At most one run per key is under way, and it is the registered one. */
  lemma OneRunPerKey(acts: seq<Action>, x: CallId, y: CallId)
    requires Active(Exec(acts), x) && Active(Exec(acts), y) && Exec(acts).calls[x].key == Exec(acts).calls[y].key
    ensures x == y && Exec(acts).calls[x].key in Exec(acts).registry
    ensures Exec(acts).registry[Exec(acts).calls[x].key] == x
  {
    InvAlways(acts);
  }

  /** The call a caller is attached to by entering the group in w. */
  predicate Attaches(w: World, c: CallerId, x: CallId) {
    && c in w.callers && w.callers[c].Entering?
    && x == (if w.callers[c].key in w.registry then w.registry[w.callers[c].key] else |w.calls|)
  }

  ghost predicate EnteredAt(acts: seq<Action>, n: nat, c: CallerId, x: CallId) {
    n < |acts| && acts[n] == Enter(c) && Attaches(Exec(acts[..n]), c, x)
  }

  lemma AttachStep(w: World, a: Action, c: CallerId)
    requires c in Next(w, a).callers && Attached(Next(w, a).callers[c])
    ensures var x := Next(w, a).callers[c].call;
      (c in w.callers && Attached(w.callers[c]) && w.callers[c].call == x) || (a == Enter(c) && Attaches(w, c, x))
  {
  }

  lemma {:induction false} WhereAttached(acts: seq<Action>, c: CallerId) returns (n: nat)
    requires c in Exec(acts).callers && Attached(Exec(acts).callers[c])
    ensures EnteredAt(acts, n, c, Exec(acts).callers[c].call)
  {
    var last := |acts| - 1;
    var before := acts[..last];
    AttachStep(Exec(before), acts[last], c);
    if c in Exec(before).callers && Attached(Exec(before).callers[c])
      && Exec(before).callers[c].call == Exec(acts).callers[c].call {
      n := WhereAttached(before, c);
      assert before[..n] == acts[..n];
    } else {
      n := last;
    }
  }

  lemma CallsGrow(w: World, a: Action, x: CallId)
    requires x < |w.calls|
    ensures x < |Next(w, a).calls| && Next(w, a).calls[x].key == w.calls[x].key
    ensures w.calls[x].result.Some? ==> Next(w, a).calls[x].result == w.calls[x].result
  {
  }

  /** A call keeps its key, and once written its result: no run is executed twice. */
  lemma {:induction false} CallKept(acts: seq<Action>, n: nat, x: CallId)
    requires n <= |acts| && x < |Exec(acts[..n]).calls|
    ensures x < |Exec(acts).calls| && Exec(acts).calls[x].key == Exec(acts[..n]).calls[x].key
    ensures Exec(acts[..n]).calls[x].result.Some? ==> Exec(acts).calls[x].result == Exec(acts[..n]).calls[x].result
  {
    if n == |acts| {
      assert acts[..n] == acts;
    } else {
      var before := acts[..|acts| - 1];
      assert before[..n] == acts[..n];
      CallKept(before, n, x);
      CallsGrow(Exec(before), acts[|acts| - 1], x);
    }
  }

  lemma KeyOfCall(acts: seq<Action>, n: nat, c: CallerId, x: CallId)
    requires EnteredAt(acts, n, c, x)
    ensures x < |Exec(acts).calls| && Exec(acts).calls[x].key == Exec(acts[..n]).callers[c].key
  {
    InvAlways(acts[..n]);
    assert acts[..n + 1][..n] == acts[..n];
    CallKept(acts, n + 1, x);
  }

  /** Every caller that its own context did not end gets exactly the result of one finished run of its
      key: the run that was registered when it held the group's lock, or the one it registered there. */
  lemma CallerGetsItsRun(acts: seq<Action>, c: CallerId) returns (n: nat)
    requires c in Exec(acts).callers && Exec(acts).callers[c].Returned?
    ensures var (w, x) := (Exec(acts), Exec(acts).callers[c].call);
      && EnteredAt(acts, n, c, x)
      && x < |w.calls| && w.calls[x].done && w.calls[x].result.Some? && w.callers[c].read == w.calls[x].result
      && w.calls[x].key == Exec(acts[..n]).callers[c].key
  {
    InvAlways(acts);
    n := WhereAttached(acts, c);
    KeyOfCall(acts, n, c, Exec(acts).callers[c].call);
  }
}
