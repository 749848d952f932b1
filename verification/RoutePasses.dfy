/** Whole passes over the queue of deferred edges when no two pending events collide: every event then
    follows the edges on its own. */
module RoutePasses {
  import opened AlertRows
  import opened RouteMoves
  import opened RouteTurns

  function MoveAll(evs: Events, edge: Edge, secret: nat): Events {
    map e | e in evs :: Move(evs[e], edge, secret)
  }

  function PassAll(evs: Events, queue: seq<Edge>, secret: nat): Events {
    map e | e in evs :: Pass(evs[e], queue, secret)
  }

  function PassesAll(evs: Events, queue: seq<Edge>, n: nat, secret: nat): Events {
    map e | e in evs :: Passes(evs[e], queue, n, secret)
  }

  predicate SomeAt(evs: Events, edge: Edge) {
    exists e | e in evs :: AtSource(evs[e], edge)
  }

  /** Renaming along edge gives no event a hash that another pending event has or is about to get. */
  ghost predicate NoClash(evs: Events, edge: Edge, secret: nat) {
    forall e, f | e in evs && f in evs && e != f && AtSource(evs[e], edge) && evs[e].status.EventPending?
      && evs[f].status.EventPending? ::
      Retargeted(evs[e], edge, secret).hash != evs[f].hash
        && Retargeted(evs[e], edge, secret).hash != Move(evs[f], edge, secret).hash
  }

  /** The rename loop midway: events in rest are still to come. */
  ghost predicate Half(was: Events, cur: Events, rest: set<EventId>, edge: Edge, secret: nat) {
    cur.Keys == was.Keys && forall e | e in was :: cur[e] == if e in rest then was[e] else Move(was[e], edge, secret)
  }

  /** A turn that meets no collision renames its event and does nothing else. */
  lemma FreeTurn(was: Events, cur: Db, rest: set<EventId>, e: EventId, edge: Edge, secret: nat, now: Time)
    requires Half(was, cur.events, rest, edge, secret) && e in was && e in rest && AtSource(was[e], edge)
    requires Free(cur, TurnRead(was, e, edge), secret)
    ensures var (n, postponed) := RunTurn(cur, TurnRead(was, e, edge), secret, now);
      !postponed && n == cur.(events := n.events) && Half(was, n.events, rest - {e}, edge, secret)
  {
    assert Renamed(cur, TurnRead(was, e, edge), secret).events[e] == Move(was[e], edge, secret);
  }

  /** Without clashes no turn meets a collision, whatever the order. */
  lemma ClearTurn(was: Events, cur: Db, rest: set<EventId>, e: EventId, edge: Edge, secret: nat)
    requires NoClash(was, edge, secret) && Half(was, cur.events, rest, edge, secret)
    requires e in was && e in rest && AtSource(was[e], edge)
    ensures Free(cur, TurnRead(was, e, edge), secret)
  {
    var t := TurnRead(was, e, edge);
    assert t.pending ==> !Held(cur.events, e, NewHash(t, secret));
  }

  /** The events of an edge's trace whose turn is still to come after i. */
  function ToCome(trace: seq<Turn>, i: nat): set<EventId>
    requires i <= |trace|
  {
    set k | i <= k < |trace| :: trace[k].event
  }

  /** After i turns exactly their events have moved. */
  ghost predicate Moved(db: Db, edge: Edge, trace: seq<Turn>, secret: nat, now: Time, i: nat)
    requires i <= |trace|
  {
    var n := Replay(db, trace[..i], secret, now);
    n == db.(events := n.events) && Half(db.events, n.events, ToCome(trace, i), edge, secret)
  }

  /** Before the first turn. */
  lemma MovedStart(db: Db, edge: Edge, trace: seq<Turn>, secret: nat, now: Time)
    requires TraceOf(db.events, edge, trace)
    ensures Moved(db, edge, trace, secret, now, 0)
  {
    forall e | e in db.events && AtSource(db.events[e], edge) ensures e in ToCome(trace, 0) {
      var k :| 0 <= k < |trace| && trace[k].event == e;
    }
    assert trace[..0] == [];
  }

  /** The next turn. */
  lemma MovedStep(db: Db, edge: Edge, trace: seq<Turn>, secret: nat, now: Time, i: nat)
    requires TraceOf(db.events, edge, trace) && i < |trace| && Moved(db, edge, trace, secret, now, i)
    requires FreeAt(db, trace, i, secret, now)
    ensures Moved(db, edge, trace, secret, now, i + 1) && !Postponed(db, trace, i, secret, now)
  {
    var e := trace[i].event;
    assert e in ToCome(trace, i);
    FreeTurn(db.events, Replay(db, trace[..i], secret, now), ToCome(trace, i), e, edge, secret, now);
    assert ToCome(trace, i + 1) == ToCome(trace, i) - {e};
    assert trace[..i + 1] == trace[..i] + [trace[i]];
    ReplaySnoc(db, trace[..i], trace[i], secret, now);
  }

  lemma {:induction false} MovedPrefix(db: Db, edge: Edge, trace: seq<Turn>, secret: nat, now: Time, i: nat)
    requires TraceOf(db.events, edge, trace) && i <= |trace|
    requires forall k: nat {:trigger FreeAt(db, trace, k, secret, now)} | k < i :: FreeAt(db, trace, k, secret, now)
    ensures Moved(db, edge, trace, secret, now, i)
  {
    if i > 0 {
      MovedPrefix(db, edge, trace, secret, now, i - 1);
      assert FreeAt(db, trace, i - 1, secret, now);
      MovedStep(db, edge, trace, secret, now, i - 1);
    } else {
      MovedStart(db, edge, trace, secret, now);
    }
  }

  /** Turns along an edge that meet no collision move exactly the events at its source. */
  lemma FreeEdge(db: Db, edge: Edge, trace: seq<Turn>, secret: nat, now: Time)
    requires TraceOf(db.events, edge, trace) && NeverHeld(db, trace, secret, now)
    ensures Replay(db, trace, secret, now) == db.(events := MoveAll(db.events, edge, secret))
    ensures forall i | 0 <= i < |trace| :: !Postponed(db, trace, i, secret, now)
    ensures trace == [] <==> !SomeAt(db.events, edge)
  {
    assert trace[..|trace|] == trace;
    MovedPrefix(db, edge, trace, secret, now, |trace|);
    assert ToCome(trace, |trace|) == {};
    forall i: nat | i < |trace| ensures !Postponed(db, trace, i, secret, now) {
      MovedPrefix(db, edge, trace, secret, now, i);
      assert FreeAt(db, trace, i, secret, now);
      MovedStep(db, edge, trace, secret, now, i);
    }
    if trace != [] { assert AtSource(db.events[trace[0].event], edge); }
  }

  lemma ClearNext(db: Db, edge: Edge, trace: seq<Turn>, secret: nat, now: Time, i: nat)
    requires NoClash(db.events, edge, secret) && TraceOf(db.events, edge, trace) && i < |trace|
    requires Moved(db, edge, trace, secret, now, i)
    ensures FreeAt(db, trace, i, secret, now)
  {
    var e := trace[i].event;
    assert e in ToCome(trace, i);
    ClearTurn(db.events, Replay(db, trace[..i], secret, now), ToCome(trace, i), e, edge, secret);
  }

  lemma {:induction false} ClearPrefix(db: Db, edge: Edge, trace: seq<Turn>, secret: nat, now: Time, i: nat)
    requires NoClash(db.events, edge, secret) && TraceOf(db.events, edge, trace) && i <= |trace|
    ensures forall k: nat {:trigger FreeAt(db, trace, k, secret, now)} | k < i :: FreeAt(db, trace, k, secret, now)
  {
    if i > 0 {
      ClearPrefix(db, edge, trace, secret, now, i - 1);
      MovedPrefix(db, edge, trace, secret, now, i - 1);
      ClearNext(db, edge, trace, secret, now, i - 1);
    }
  }

  /** Without clashes the turns along an edge meet no collision, in any order of the rows. */
  lemma ClearEdge(db: Db, edge: Edge, trace: seq<Turn>, secret: nat, now: Time)
    requires NoClash(db.events, edge, secret) && TraceOf(db.events, edge, trace)
    ensures NeverHeld(db, trace, secret, now)
  {
    ClearPrefix(db, edge, trace, secret, now, |trace|);
  }

  /** No edge of the pass makes two pending events collide at its turn. */
  ghost predicate ClearPass(evs: Events, queue: seq<Edge>, secret: nat) {
    forall i | 0 <= i < |queue| :: NoClash(PassAll(evs, queue[..i], secret), queue[i], secret)
  }

  lemma PassAllMoves(evs: Events, queue: seq<Edge>, i: nat, secret: nat)
    requires i < |queue|
    ensures MoveAll(PassAll(evs, queue[..i], secret), queue[i], secret) == PassAll(evs, queue[..i + 1], secret)
  {
    assert queue[..i + 1][..i] == queue[..i];
  }

  /** Some event has an edge to follow among the first i. */
  predicate SomeMoves(evs: Events, queue: seq<Edge>) {
    exists e | e in evs :: !Stuck(evs[e], queue)
  }

  lemma StuckStep(evs: Events, queue: seq<Edge>, i: nat, secret: nat, e: EventId)
    requires i < |queue| && e in evs
    ensures !Stuck(evs[e], queue[..i + 1]) <==> !Stuck(evs[e], queue[..i]) || AtSource(evs[e], queue[i])
    ensures Stuck(evs[e], queue[..i]) ==> Pass(evs[e], queue[..i], secret) == evs[e]
  {
    assert forall j | 0 <= j < i :: queue[..i + 1][j] == queue[..i][j];
    assert queue[..i + 1][i] == queue[i];
    var w := PassWalks(evs[e], queue[..i], secret);
  }

  /** The pass extended by edge i: its events, and whether anything moved so far. */
  lemma PassAllStep(evs: Events, queue: seq<Edge>, i: nat, secret: nat)
    requires i < |queue|
    ensures MoveAll(PassAll(evs, queue[..i], secret), queue[i], secret) == PassAll(evs, queue[..i + 1], secret)
    ensures SomeMoves(evs, queue[..i + 1]) <==>
      SomeMoves(evs, queue[..i]) || SomeAt(PassAll(evs, queue[..i], secret), queue[i])
  {
    PassAllMoves(evs, queue, i, secret);
    var mid := PassAll(evs, queue[..i], secret);
    forall e | e in evs
      ensures !Stuck(evs[e], queue[..i + 1]) ==> !Stuck(evs[e], queue[..i]) || AtSource(mid[e], queue[i])
      ensures !Stuck(evs[e], queue[..i]) || AtSource(mid[e], queue[i]) ==> !Stuck(evs[e], queue[..i + 1])
    {
      StuckStep(evs, queue, i, secret, e);
    }
  }

  /** b is a after renames along a chain of queued edges from its target. */
  ghost predicate Reaches(a: Event, b: Event, queue: seq<Edge>, secret: nat) {
    exists w: seq<Edge> ::
      Over(w, queue) && b == Follow(a, w, secret) && Walk(w, a.subject.service, a.subject.target, b.subject.target)
  }

  lemma OverAppend(u: seq<Edge>, v: seq<Edge>, queue: seq<Edge>)
    requires Over(u, queue) && Over(v, queue)
    ensures Over(u + v, queue)
  {
  }

  /** No two pending events meet in a hash at any moment of the passes that the loop may make. */
  ghost predicate ClearRun(evs: Events, queue: seq<Edge>, secret: nat) {
    forall n | 0 <= n <= |queue| :: ClearPass(PassesAll(evs, queue, n, secret), queue, secret)
  }

  // ---- A condition on the queue alone ----

  /** w is a chain of queued edges that the event could follow from where it is. */
  ghost predicate Route(ev: Event, w: seq<Edge>, queue: seq<Edge>, secret: nat) {
    Over(w, queue) && Walk(w, ev.subject.service, ev.subject.target, Follow(ev, w, secret).subject.target)
  }

  /** No renames that two pending events could go through ever give one the hash of the other. */
  ghost predicate Apart(evs: Events, queue: seq<Edge>, secret: nat) {
    forall e, f, u: seq<Edge>, v: seq<Edge>
      {:trigger Route(evs[e], u, queue, secret), Route(evs[f], v, queue, secret)} |
      && e in evs && evs[e].status.EventPending? && u != [] && Route(evs[e], u, queue, secret)
      && f in evs && evs[f].status.EventPending? && e != f && Route(evs[f], v, queue, secret) ::
      Follow(evs[e], u, secret).hash != Follow(evs[f], v, secret).hash
  }

  /** Anywhere in the passes an event is its start followed along a route. */
  lemma MidwayFollows(ev: Event, queue: seq<Edge>, n: nat, i: nat, secret: nat) returns (w: seq<Edge>)
    requires i <= |queue|
    ensures Route(ev, w, queue, secret)
    ensures Pass(Passes(ev, queue, n, secret), queue[..i], secret) == Follow(ev, w, secret)
  {
    var mid := Passes(ev, queue, n, secret);
    var end := Pass(mid, queue[..i], secret);
    var u := PassesWalk(ev, queue, n, secret);
    var v := PassWalks(mid, queue[..i], secret);
    FollowKeeps(ev, u, secret);
    FollowAppend(ev, u, v, secret);
    WalkAppend(u, v, ev.subject.service, ev.subject.target, mid.subject.target, end.subject.target);
    assert Over(v, queue);
    OverAppend(u, v, queue);
    w := u + v;
  }

  /** One more edge that leaves from where the route ends. */
  lemma RouteOneMore(ev: Event, w: seq<Edge>, edge: Edge, queue: seq<Edge>, secret: nat)
    requires Route(ev, w, queue, secret) && edge in queue && AtSource(Follow(ev, w, secret), edge)
    ensures Route(ev, w + [edge], queue, secret)
    ensures Follow(ev, w + [edge], secret) == Retargeted(Follow(ev, w, secret), edge, secret)
  {
    FollowKeeps(ev, w, secret);
    assert (w + [edge])[..|w|] == w;
  }

  lemma ApartHashes(evs: Events, queue: seq<Edge>, secret: nat, e: EventId, f: EventId, u: seq<Edge>, v: seq<Edge>)
    requires Apart(evs, queue, secret) && e in evs && f in evs && e != f && u != []
    requires evs[e].status.EventPending? && evs[f].status.EventPending?
    requires Route(evs[e], u, queue, secret) && Route(evs[f], v, queue, secret)
    ensures Follow(evs[e], u, secret).hash != Follow(evs[f], v, secret).hash
  {
  }

  /** Events whose routes keep apart never clash at any point of any pass. */
  lemma ApartNoClash(evs: Events, queue: seq<Edge>, n: nat, i: nat, secret: nat)
    requires Apart(evs, queue, secret) && i < |queue|
    ensures NoClash(PassAll(PassesAll(evs, queue, n, secret), queue[..i], secret), queue[i], secret)
  {
    var mid := PassAll(PassesAll(evs, queue, n, secret), queue[..i], secret);
    forall e, f |
      && e in mid && mid[e].status.EventPending? && AtSource(mid[e], queue[i])
      && f in mid && mid[f].status.EventPending? && e != f
      ensures Retargeted(mid[e], queue[i], secret).hash != mid[f].hash
      ensures Retargeted(mid[e], queue[i], secret).hash != Move(mid[f], queue[i], secret).hash
    {
      var u := MidwayFollows(evs[e], queue, n, i, secret);
      var v := MidwayFollows(evs[f], queue, n, i, secret);
      FollowKeeps(evs[e], u, secret);
      FollowKeeps(evs[f], v, secret);
      RouteOneMore(evs[e], u, queue[i], queue, secret);
      ApartHashes(evs, queue, secret, e, f, u + [queue[i]], v);
      if AtSource(mid[f], queue[i]) {
        RouteOneMore(evs[f], v, queue[i], queue, secret);
        ApartHashes(evs, queue, secret, e, f, u + [queue[i]], v + [queue[i]]);
      }
    }
  }

  /** Apart events see no collision in any pass. */
  lemma ApartIsClear(evs: Events, queue: seq<Edge>, secret: nat)
    requires Apart(evs, queue, secret)
    ensures ClearRun(evs, queue, secret)
  {
    forall n | 0 <= n <= |queue| ensures ClearPass(PassesAll(evs, queue, n, secret), queue, secret) {
      forall i | 0 <= i < |queue|
        ensures NoClash(PassAll(PassesAll(evs, queue, n, secret), queue[..i], secret), queue[i], secret)
      {
        ApartNoClash(evs, queue, n, i, secret);
      }
    }
  }

  function AfterPass(db: Db, queue: seq<Edge>, secret: nat): Db {
    db.(events := PassAll(db.events, queue, secret))
  }

  /** The tables after n passes without collisions. */
  function AfterPasses(db: Db, queue: seq<Edge>, n: nat, secret: nat): Db {
    if n == 0 then db else AfterPass(AfterPasses(db, queue, n - 1, secret), queue, secret)
  }

  /** In them every event has followed its edges on its own. */
  lemma {:induction false} AfterPassesAll(db: Db, queue: seq<Edge>, n: nat, secret: nat)
    ensures AfterPasses(db, queue, n, secret) == db.(events := PassesAll(db.events, queue, n, secret))
  {
    if n > 0 { AfterPassesAll(db, queue, n - 1, secret); }
  }

  ghost predicate AllStuck(evs: Events, queue: seq<Edge>) {
    forall e | e in evs :: Stuck(evs[e], queue)
  }

  ghost predicate AllReach(a: Events, b: Events, queue: seq<Edge>, secret: nat) {
    a.Keys == b.Keys && forall e | e in a :: Reaches(a[e], b[e], queue, secret)
  }

  lemma PassesReach(evs: Events, queue: seq<Edge>, n: nat, secret: nat)
    ensures AllReach(evs, PassesAll(evs, queue, n, secret), queue, secret)
  {
    forall e | e in evs ensures Reaches(evs[e], Passes(evs[e], queue, n, secret), queue, secret) {
      var w := PassesWalk(evs[e], queue, n, secret);
    }
  }

  lemma NothingMoved(evs: Events, queue: seq<Edge>, secret: nat)
    requires AllStuck(evs, queue)
    ensures PassAll(evs, queue, secret) == evs
  {
    forall e | e in evs ensures Pass(evs[e], queue, secret) == evs[e] {
      var w := PassWalks(evs[e], queue, secret);
    }
  }

  lemma AllSettled(evs: Events, queue: seq<Edge>, secret: nat)
    requires Acyclic(queue)
    ensures AllStuck(PassesAll(evs, queue, |queue|, secret), queue)
  {
    forall e | e in evs ensures Stuck(Passes(evs[e], queue, |queue|, secret), queue) {
      var w := PassesSettle(evs[e], queue, |queue|, secret);
    }
  }
}
