/** An edge whose events are tangled, and what its turns then do. */
module RouteTangle {
  import opened AlertRows
  import opened OutboxSpec
  import opened RouteMoves
  import opened RouteCollision
  import opened RouteTurns

  /** Two events at the edge's source, the second under the key the first is about to get, and a row each. */
  function Tangled(secret: nat): Db {
    var at := Subject("k", "s", "a", "", "", "", "down");
    var (first, second) :=
      (Event(at, "a", Hmac(secret, "a"), 0, EventPending), Event(at, "b", Hmac(secret, "b"), 0, EventPending));
    Db(map[1 := first, 2 := second], map[1 := FreshDispatch(1, "x", 0), 2 := FreshDispatch(2, "y", 0)], 2, 2)
  }

  /** An event about target a, for one sink. */
  function Ask(key: string, sink: string): Request {
    Request(Subject("k", "s", "a", "", "", "", "down"), key, "", [sink], 0)
  }

  /** The tables with the first of the two events only. */
  function OneAsked(secret: nat): Db {
    var event := Event(Ask("a", "x").subject, "a", Hmac(secret, "a"), 0, EventPending);
    Db(map[1 := event], map[1 := FreshDispatch(1, "x", 0)], 1, 1)
  }

  lemma EnqueuesFirst(secret: nat)
    ensures Enqueue(EMPTY_DB, Ask("a", "x"), 0, secret, true).0 == OneAsked(secret)
  {
    var r := Ask("a", "x");
    assert ValidRequest(r);
    var m := InsertEvent(EMPTY_DB, r, Hmac(secret, r.key));
    assert r.sinks[..0] == [] && AddDispatches(m, 1, [], 0) == m;
    assert AddDispatches(m, 1, r.sinks, 0) == AddDispatch(m, 1, "x", 0);
  }

  lemma EnqueuesSecond(secret: nat)
    ensures Enqueue(OneAsked(secret), Ask("b", "y"), 0, secret, true).0 == Tangled(secret)
  {
    var (db, r) := (OneAsked(secret), Ask("b", "y"));
    assert "a"[0] != "b"[0] && ValidRequest(r);
    var m := InsertEvent(db, r, Hmac(secret, r.key));
    assert r.sinks[..0] == [] && AddDispatches(m, 2, [], 0) == m;
    assert AddDispatches(m, 2, r.sinks, 0) == AddDispatch(m, 2, "y", 0);
    assert !HasSink(m.dispatches, 2, "y");
  }

  /** Two plain enqueues lead there from empty tables. */
  lemma TangledIsEnqueued(secret: nat)
    ensures var first := Enqueue(EMPTY_DB, Ask("a", "x"), 0, secret, true).0;
      Enqueue(first, Ask("b", "y"), 0, secret, true).0 == Tangled(secret)
  {
    EnqueuesFirst(secret);
    EnqueuesSecond(secret);
  }

  lemma TangledIsCoherent(secret: nat)
    ensures Coherent(Tangled(secret))
  {
    var db := Tangled(secret);
    assert "a"[0] != "b"[0];
    assert db.dispatches[1].event == 1 && db.dispatches[2].event == 2;
    assert HasActive(db.dispatches, 1) && HasActive(db.dispatches, 2);
  }

  lemma KeysRenamed(edge: Edge)
    requires edge.source == "a" && edge.dest == "b"
    ensures RenameKey("a", edge) == "b" && RenameKey("b", edge) == "b"
  {
    assert "a" <= "a" && "a"[1..] == "";
    assert ReplaceAll("", "a", "b") == "" && ReplaceAll("a", "a", "b") == "b" + "";
    assert "b"[1..] == "" && ReplaceAll("b", "a", "b") == "b" + "";
  }

  lemma MergesWhole(rows: Rows, keeper: EventId, dup: EventId, now: Time)
    requires forall d, k | d in rows && k in rows && rows[d].event == dup && rows[k].event == keeper ::
      rows[d].sink != rows[k].sink
    ensures !Deferred(rows, keeper, dup)
    ensures forall d | d in rows ::
      MergedRow(rows, keeper, dup, d, now) == if ActiveOf(rows, dup, d) then rows[d].(event := keeper) else rows[d]
  {
  }

  lemma OneHolder(db: Db, t: Turn, f: EventId, secret: nat, now: Time)
    requires t.pending && t.event in db.events && f in db.events
    requires forall x | x in db.events :: Holder(db.events, t.event, NewHash(t, secret), x) <==> x == f
    ensures RunTurn(db, t, secret, now) == TurnOver(db, t, f, secret, now)
  {
    assert Held(db.events, t.event, NewHash(t, secret));
  }

  lemma FirstTurn(edge: Edge, secret: nat, now: Time) returns (n: Db)
    requires edge == Edge("s", "a", "b")
    ensures RunTurn(Tangled(secret), TurnRead(Tangled(secret).events, 1, edge), secret, now) == (n, false)
    ensures n.dispatches == map[1 := FreshDispatch(1, "x", 0), 2 := FreshDispatch(1, "y", 0)] && n.events.Keys == {1, 2}
    ensures n.events[1].status.EventPending? && n.events[1].hash == Hmac(secret, "b")
    ensures n.events[2] == Tangled(secret).events[2].(status := EventReset)
  {
    var db := Tangled(secret);
    var t := TurnRead(db.events, 1, edge);
    KeysRenamed(edge);
    MergesWhole(db.dispatches, 1, 2, now);
    OneHolder(db, t, 2, secret, now);
    n := RunTurn(db, t, secret, now).0;
    assert n.dispatches == map[1 := FreshDispatch(1, "x", 0), 2 := FreshDispatch(1, "y", 0)];
  }

  lemma SecondTurn(db: Db, edge: Edge, secret: nat, now: Time) returns (n: Db)
    requires edge == Edge("s", "a", "b") && db.events.Keys == {1, 2}
    requires db.dispatches == map[1 := FreshDispatch(1, "x", 0), 2 := FreshDispatch(1, "y", 0)]
    requires db.events[1].status.EventPending? && db.events[1].hash == Hmac(secret, "b")
    requires db.events[2] == Tangled(secret).events[2].(status := EventReset)
    ensures RunTurn(db, TurnRead(Tangled(secret).events, 2, edge), secret, now) == (n, false)
    ensures 2 in n.events && n.events[2].status.EventReset? && n.events[2].createdAt == 0
    ensures n.dispatches == map[1 := FreshDispatch(2, "x", 0), 2 := FreshDispatch(2, "y", 0)]
  {
    var t := TurnRead(Tangled(secret).events, 2, edge);
    KeysRenamed(edge);
    MergesWhole(db.dispatches, 2, 1, now);
    OneHolder(db, t, 1, secret, now);
    n := RunTurn(db, t, secret, now).0;
    assert n.dispatches == map[1 := FreshDispatch(2, "x", 0), 2 := FreshDispatch(2, "y", 0)];
  }

  /** The two turns, as the loop reads them. */
  function TwoTurns(edge: Edge, secret: nat): seq<Turn> {
    [TurnRead(Tangled(secret).events, 1, edge), TurnRead(Tangled(secret).events, 2, edge)]
  }

  lemma TangledReplay(edge: Edge, secret: nat, now: Time) returns (first: Db, n: Db)
    requires edge == Edge("s", "a", "b")
    ensures Replay(Tangled(secret), TwoTurns(edge, secret)[..1], secret, now) == first
    ensures Replay(Tangled(secret), TwoTurns(edge, secret), secret, now) == n
    ensures first.dispatches == map[1 := FreshDispatch(1, "x", 0), 2 := FreshDispatch(1, "y", 0)]
      && first.events.Keys == {1, 2}
    ensures first.events[1].status.EventPending? && first.events[1].hash == Hmac(secret, "b")
    ensures first.events[2].status.EventReset?
    ensures 2 in n.events && n.events[2].status.EventReset? && n.events[2].createdAt == 0
    ensures n.dispatches == map[1 := FreshDispatch(2, "x", 0), 2 := FreshDispatch(2, "y", 0)]
  {
    var (db, trace) := (Tangled(secret), TwoTurns(edge, secret));
    first := FirstTurn(edge, secret, now);
    n := SecondTurn(first, edge, secret, now);
    assert trace == [trace[0]] + [trace[1]] && trace[..1] == [] + [trace[0]];
    ReplaySnoc(db, [], trace[0], secret, now);
    ReplaySnoc(db, [trace[0]], trace[1], secret, now);
  }

  lemma SecondTurnMoves(rows: Rows)
    requires rows == map[1 := FreshDispatch(1, "x", 0), 2 := FreshDispatch(1, "y", 0)]
    ensures Moves(rows, 2, 1, 1)
  {
  }

  lemma SecondTurnUnsafe(first: Db, edge: Edge, secret: nat)
    requires edge == Edge("s", "a", "b") && first.events.Keys == {1, 2}
    requires first.dispatches == map[1 := FreshDispatch(1, "x", 0), 2 := FreshDispatch(1, "y", 0)]
    requires first.events[1].status.EventPending? && first.events[1].hash == Hmac(secret, "b")
    requires first.events[2].status.EventReset?
    ensures !Safe(first, TwoTurns(edge, secret)[1], secret)
  {
    KeysRenamed(edge);
    SecondTurnMoves(first.dispatches);
    assert Holder(first.events, 2, NewHash(TwoTurns(edge, secret)[1], secret), 1);
  }

  lemma TangledTrace(edge: Edge, secret: nat)
    requires edge == Edge("s", "a", "b")
    ensures TraceOf(Tangled(secret).events, edge, TwoTurns(edge, secret))
  {
    var trace := TwoTurns(edge, secret);
    assert trace[0].event == 1 && trace[1].event == 2;
  }

  /** Rows of a reset event are out of an enqueue's sight and go when the event is pruned. */
  lemma ResetWorkIsPruned(n: Db, e: EventId, cutoff: Time)
    requires e in n.events && n.events[e].status.EventReset? && n.events[e].createdAt < cutoff
    requires forall d | d in n.dispatches :: n.dispatches[d].event == e
    ensures (forall h :: !PendingWith(n, h, e)) && e in PrunableIds(n, cutoff)
    ensures DeleteEvents(n, PrunableIds(n, cutoff)).dispatches == map[]
  {
  }

  /** Statuses are read once, before the first turn. The first turn merges the second event away; its
      own turn still comes, and takes all the work as an event that is reset. From then on an enqueue of
      its key does not find it, and pruning deletes the work undelivered. */
  lemma TangledTurnsLoseWork(edge: Edge, secret: nat, now: Time, cutoff: Time)
    requires edge == Edge("s", "a", "b") && cutoff > 0
    ensures var (db, trace) := (Tangled(secret), TwoTurns(edge, secret));
      var n := Replay(db, trace, secret, now);
      && TraceOf(db.events, edge, trace) && !AllSafe(db, trace, secret, now) && Coherent(db) && !Coherent(n)
      && n.dispatches.Keys == {1, 2} && Active(n.dispatches[1].status) && Active(n.dispatches[2].status)
      && (forall h :: !PendingWith(n, h, 2)) && 2 in PrunableIds(n, cutoff)
      && DeleteEvents(n, PrunableIds(n, cutoff)).dispatches == map[]
  {
    var first, n := TangledReplay(edge, secret, now);
    SecondTurnUnsafe(first, edge, secret);
    assert !SafeAt(Tangled(secret), TwoTurns(edge, secret), 1, secret, now);
    TangledTrace(edge, secret);
    ResetWorkIsPruned(n, 2, cutoff);
    TangledIsCoherent(secret);
    assert n.dispatches[1].event == 2 && HasActive(n.dispatches, 2);
  }
}
