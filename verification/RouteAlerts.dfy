/** The store's rename migration: one edge, one pass over the queue, and the fixed-point loop. */
module RouteAlerts {
  import opened AlertRows
  import opened Least
  import opened RouteMoves
  import opened RouteCollision
  import opened RouteLaws
  import opened RouteTurns
  import opened RoutePasses

  /** now is rows with exactly the rows in done settled, none of which blocks. */
  ghost predicate Progress(rows: Rows, cur: Rows, done: set<DispatchId>, keeper: EventId, dup: EventId, now: Time) {
    && cur.Keys == rows.Keys
    && (forall d | d in done ::
      ActiveOf(rows, dup, d) && !Blocks(rows, keeper, d) && cur[d] == SettledRow(rows, keeper, d, now))
    && (forall d | d in rows && d !in done :: cur[d] == rows[d])
  }

  /** Settling other sinks changed nothing about the keeper's row for this one. */
  lemma SinkFrame(rows: Rows, cur: Rows, done: set<DispatchId>, keeper: EventId, dup: EventId, d: DispatchId, now: Time)
    requires keeper != dup && UniqueSinks(rows) && Progress(rows, cur, done, keeper, dup, now)
    requires ActiveOf(rows, dup, d) && d !in done
    ensures SinkTaken(rows, keeper, rows[d].sink) == SinkTaken(cur, keeper, rows[d].sink)
    ensures SinkClosed(rows, keeper, rows[d].sink) == SinkClosed(cur, keeper, rows[d].sink)
  {
    var sink := rows[d].sink;
    forall y | y in done ensures rows[y].sink != sink {
      assert !SameSlot(rows[y], rows[d]);
    }
    if SinkTaken(rows, keeper, sink) {
      var k :| k in rows && rows[k].event == keeper && rows[k].sink == sink;
      assert cur[k] == rows[k];
    }
    if SinkClosed(rows, keeper, sink) {
      var k :| k in rows && rows[k].event == keeper && rows[k].sink == sink && Closed(rows[k].status);
      assert cur[k] == rows[k];
    }
  }

  lemma ProgressStep(rows: Rows, cur: Rows, done: set<DispatchId>, keeper: EventId, dup: EventId, d: DispatchId,
        now: Time)
    requires Progress(rows, cur, done, keeper, dup, now) && ActiveOf(rows, dup, d) && !Blocks(rows, keeper, d)
    ensures Progress(rows, cur[d := SettledRow(rows, keeper, d, now)], done + {d}, keeper, dup, now)
  {
  }

  lemma ProgressComplete(rows: Rows, cur: Rows, done: set<DispatchId>, keeper: EventId, dup: EventId, now: Time)
    requires Progress(rows, cur, done, keeper, dup, now) && !InFlightBlocked(rows, keeper, dup)
    requires forall d | d in rows && ActiveOf(rows, dup, d) :: d in done
    ensures cur == MergedRows(rows, keeper, dup, now) && !Deferred(rows, keeper, dup)
  {
  }

  lemma ProgressBlocked(rows: Rows, cur: Rows, done: set<DispatchId>, keeper: EventId, dup: EventId, d: DispatchId,
        now: Time)
    requires Progress(rows, cur, done, keeper, dup, now) && !InFlightBlocked(rows, keeper, dup)
    requires ActiveOf(rows, dup, d) && Blocks(rows, keeper, d)
    requires forall x | x in rows && ActiveOf(rows, dup, x) :: x in done <==> x < d
    ensures cur == MergedRows(rows, keeper, dup, now) && Deferred(rows, keeper, dup)
  {
    forall x | x in rows ensures cur[x] == MergedRow(rows, keeper, dup, x, now) {
      if ActiveOf(rows, dup, x) { assert Reached(rows, keeper, dup, x) <==> x < d; }
    }
  }

  ghost predicate SomePostponed(was: Db, trace: seq<Turn>, secret: nat, now: Time) {
    exists i: nat :: i < |trace| && Postponed(was, trace, i, secret, now)
  }

  ghost predicate SomeRenamed(was: Db, trace: seq<Turn>, secret: nat, now: Time) {
    exists i: nat :: i < |trace| && !Postponed(was, trace, i, secret, now)
  }

  lemma OutcomesSnoc(was: Db, trace: seq<Turn>, t: Turn, secret: nat, now: Time)
    ensures var postponed := RunTurn(Replay(was, trace, secret, now), t, secret, now).1;
      && (SomePostponed(was, trace + [t], secret, now) <==> SomePostponed(was, trace, secret, now) || postponed)
      && (SomeRenamed(was, trace + [t], secret, now) <==> SomeRenamed(was, trace, secret, now) || !postponed)
  {
    var longer := trace + [t];
    assert longer[..|trace|] == trace;
    assert Postponed(was, longer, |trace|, secret, now) <==> RunTurn(Replay(was, trace, secret, now), t, secret, now).1;
    forall i: nat | i < |trace| ensures Postponed(was, longer, i, secret, now) <==>
      Postponed(was, trace, i, secret, now) {
      assert longer[..i] == trace[..i];
    }
  }

  /** The turns of an edge for all events at its source but those in rest. */
  ghost predicate PartTrace(evs: Events, edge: Edge, trace: seq<Turn>, rest: set<EventId>) {
    && (forall e | e in rest :: e in evs && AtSource(evs[e], edge))
    && (forall i | 0 <= i < |trace| ::
      trace[i].event in evs && trace[i].event !in rest && AtSource(evs[trace[i].event], edge))
    && (forall i | 0 <= i < |trace| :: trace[i] == TurnRead(evs, trace[i].event, edge))
    && (forall i, j | 0 <= i < j < |trace| :: trace[i].event != trace[j].event)
    && (forall e | e in evs && AtSource(evs[e], edge) && e !in rest ::
      exists i :: 0 <= i < |trace| && trace[i].event == e)
  }

  lemma PartTraceSnoc(evs: Events, edge: Edge, trace: seq<Turn>, rest: set<EventId>, e: EventId)
    requires PartTrace(evs, edge, trace, rest) && e in rest
    ensures PartTrace(evs, edge, trace + [TurnRead(evs, e, edge)], rest - {e})
  {
    var longer := trace + [TurnRead(evs, e, edge)];
    forall x | x in evs && AtSource(evs[x], edge) && x !in rest - {e} ensures exists i ::
      0 <= i < |longer| && longer[i].event == x {
      if x == e {
        assert longer[|trace|].event == e;
      } else {
        var i :| 0 <= i < |trace| && trace[i].event == x;
        assert longer[i].event == x;
      }
    }
  }

  /** Two runs of turns, one after the other. */
  lemma RanOn(was: Db, mid: Db, end: Db, trace: seq<Turn>, more: seq<Turn>, secret: nat, now: Time)
    requires Honest(was, trace, secret, now) && mid == Replay(was, trace, secret, now) && Kept(was, mid)
    requires Honest(mid, more, secret, now) && end == Replay(mid, more, secret, now) && Kept(mid, end)
    ensures Honest(was, trace + more, secret, now) && end == Replay(was, trace + more, secret, now) && Kept(was, end)
  {
    ReplayAppend(was, trace, more, secret, now);
    KeptTransitive(was, mid, end);
  }

  lemma EdgeCoherent(was: Db, edge: Edge, trace: seq<Turn>, secret: nat, now: Time)
    requires Lawful(was) && Honest(was, trace, secret, now) && TraceOf(was.events, edge, trace)
    ensures Coherent(was) ==> (Coherent(Replay(was, trace, secret, now)) <==> AllSafe(was, trace, secret, now))
    ensures Untangled(was.events, edge, secret) ==> AllSafe(was, trace, secret, now)
  {
    if Coherent(was) { ReplayCoherentExactly(was, trace, secret, now); }
    if Untangled(was.events, edge, secret) { UntangledIsSafe(was, edge, trace, secret, now); }
  }

  lemma EdgeFree(was: Db, edge: Edge, trace: seq<Turn>, secret: nat, now: Time)
    requires TraceOf(was.events, edge, trace)
    ensures NoClash(was.events, edge, secret) ==> NeverHeld(was, trace, secret, now)
    ensures NeverHeld(was, trace, secret, now) ==>
      && Replay(was, trace, secret, now) == was.(events := MoveAll(was.events, edge, secret))
      && !SomePostponed(was, trace, secret, now) && (SomeRenamed(was, trace, secret, now) <==> SomeAt(was.events, edge))
  {
    if NoClash(was.events, edge, secret) { ClearEdge(was, edge, trace, secret, now); }
    if NeverHeld(was, trace, secret, now) {
      FreeEdge(was, edge, trace, secret, now);
      if trace != [] { assert !Postponed(was, trace, 0, secret, now); }
    }
  }

  class RouteAlerts {
    var events: Events
    var dispatches: Rows
    var deferred: set<Edge>
    const lastEvent: EventId
    const lastDispatch: DispatchId
    const secret: nat

    ghost function Tables(): Db
      reads this
    {
      Db(events, dispatches, lastEvent, lastDispatch)
    }

    constructor (db: Db, deferred: set<Edge>, secret: nat)
      ensures Tables() == db && this.deferred == deferred && this.secret == secret
    {
      events, dispatches, lastEvent, lastDispatch := db.events, db.dispatches, db.lastEvent, db.lastDispatch;
      this.deferred, this.secret := deferred, secret;
    }

    /** Moves one row to the keeper, resets it where the keeper already closed its sink, or reports
        that it blocks. */
    method SettleRow(keeper: EventId, d: DispatchId, now: Time) returns (blocked: bool)
      requires d in dispatches && Active(dispatches[d].status)
      modifies this`dispatches
      ensures blocked == Blocks(old(dispatches), keeper, d)
      ensures dispatches == if blocked then old(dispatches)
        else old(dispatches)[d := SettledRow(old(dispatches), keeper, d, now)]
    {
      var row := dispatches[d];
      if !SinkTaken(dispatches, keeper, row.sink) {
        dispatches := dispatches[d := row.(event := keeper)];
        return false;
      }
      if row.status.Pending? && SinkClosed(dispatches, keeper, row.sink) {
        dispatches := dispatches[d := ResetRow(row, now)];
        return false;
      }
      return true;
    }

    /** Settles the lowest row left, or finds that it blocks and the merge ends as specified. */
    method SettleNext(ghost rows: Rows, ghost done: set<DispatchId>, keeper: EventId, dup: EventId, d: DispatchId,
          now: Time) returns (blocked: bool)
      requires UniqueSinks(rows) && keeper != dup && !InFlightBlocked(rows, keeper, dup)
      requires Progress(rows, dispatches, done, keeper, dup, now) && ActiveOf(rows, dup, d) && d !in done
      requires forall x | x in rows && ActiveOf(rows, dup, x) :: x in done <==> x < d
      modifies this`dispatches
      ensures blocked ==> dispatches == MergedRows(rows, keeper, dup, now) && Deferred(rows, keeper, dup)
      ensures !blocked ==> Progress(rows, dispatches, done + {d}, keeper, dup, now)
    {
      ghost var before := dispatches;
      SinkFrame(rows, before, done, keeper, dup, d, now);
      blocked := SettleRow(keeper, d, now);
      if blocked {
        ProgressBlocked(rows, before, done, keeper, dup, d, now);
      } else {
        ProgressStep(rows, before, done, keeper, dup, d, now);
      }
    }

    /** The second loop: rows in id order are moved or reset until one blocks. */
    method SettleRows(keeper: EventId, dup: EventId, dups: set<DispatchId>, now: Time) returns (postponed: bool)
      requires UniqueSinks(dispatches) && keeper != dup
      requires dups == set d | d in dispatches && ActiveOf(dispatches, dup, d)
      requires !InFlightBlocked(dispatches, keeper, dup)
      modifies this`dispatches
      ensures dispatches == MergedRows(old(dispatches), keeper, dup, now)
      ensures postponed == Deferred(old(dispatches), keeper, dup)
    {
      ghost var rows := dispatches;
      ghost var done: set<DispatchId> := {};
      var rest := dups;
      while rest != {}
        invariant done + rest == dups && done !! rest
        invariant forall x: DispatchId, y: DispatchId | x in rest && y in done :: y < x
        invariant Progress(rows, dispatches, done, keeper, dup, now)
        decreases rest
      {
        ghost var least := LeastExists(rest);
        var d :| d in rest && forall x: DispatchId | x in rest :: d <= x;
        var blocked := SettleNext(rows, done, keeper, dup, d, now);
        if blocked { return true; }
        done, rest := done + {d}, rest - {d};
      }
      ProgressComplete(rows, dispatches, done, keeper, dup, now);
      return false;
    }

    method MergeRouteCollision(keeper: EventId, dup: EventId, now: Time) returns (postponed: bool)
      requires Schema(Tables()) && keeper in events && dup in events && keeper != dup
      modifies this`events, this`dispatches
      ensures (Tables(), postponed) == Merge(old(Tables()), keeper, dup, now)
    {
      ghost var rows := dispatches;
      var dups := set d | d in dispatches && ActiveOf(dispatches, dup, d);
      var rest := dups;
      while rest != {}
        invariant rest <= dups
        invariant forall d | d in dups - rest :: !(rows[d].status.InFlight? && SinkTaken(rows, keeper, rows[d].sink))
        decreases rest
      {
        var d :| d in rest;
        if dispatches[d].status.InFlight? && SinkTaken(dispatches, keeper, dispatches[d].sink) {
          assert Blocks(rows, keeper, d);
          assert MergedRows(rows, keeper, dup, now) == rows;
          return true;
        }
        rest := rest - {d};
      }
      postponed := SettleRows(keeper, dup, dups, now);
      if postponed { return; }
      DuplicateDrained(rows, keeper, dup, now);
      if exists d | d in dispatches :: dispatches[d].event == dup && dispatches[d].status.InFlight? {
        assert false; // every claim was moved to the keeper or the merge was postponed
      } else {
        events := events[dup := events[dup].(status := EventReset)];
      }
    }

    /** Makes the renamed event the keeper of its destination hash; true means the rename must wait. */
    method ReconcileCollision(e: EventId, h: Hash, now: Time) returns (postponed: bool)
      requires Lawful(Tables()) && e in events
      modifies this`events, this`dispatches
      ensures !Held(old(events), e, h) ==> !postponed && Tables() == old(Tables())
      ensures forall f | f in old(events) && Holder(old(events), e, h, f) ::
        (Tables(), postponed) == Merge(old(Tables()), e, f, now)
    {
      if f :| f in events && Holder(events, e, h, f) {
        forall g | g in events && Holder(events, e, h, g) ensures g == f {
          assert Rivals(events[f], events[g]);
        }
        postponed := MergeRouteCollision(e, f, now);
      } else {
        postponed := false;
      }
    }

    method TakeTurn(t: Turn, now: Time) returns (postponed: bool)
      requires Lawful(Tables()) && MayRun(Tables(), t)
      modifies this`events, this`dispatches
      ensures (Tables(), postponed) == RunTurn(old(Tables()), t, secret, now)
    {
      ghost var was := Tables();
      var h := Hmac(secret, RenameKey(t.key, t.edge));
      postponed := false;
      if t.pending {
        postponed := ReconcileCollision(t.event, h, now);
        if f :| f in was.events && Holder(was.events, t.event, h, f) { TurnOverHolder(was, t, f, secret, now); }
      }
      if !postponed {
        var ev := events[t.event];
        var subject := ev.subject.(target := t.edge.dest);
        events := events[t.event := ev.(subject := subject, key := RenameKey(t.key, t.edge), hash := h)];
      }
    }

    /** One turn of the rename loop; from coherent tables it ends coherent exactly if it was safe. */
    method MigrateOne(t: Turn, now: Time) returns (postponed: bool)
      requires Lawful(Tables()) && MayRun(Tables(), t)
      modifies this
      ensures (Tables(), postponed) == RunTurn(old(Tables()), t, secret, now)
      ensures Turned(old(Tables()), t, Tables(), postponed, secret, now) && Kept(old(Tables()), Tables())
      ensures deferred == if postponed then old(deferred) + {t.edge} else old(deferred)
      ensures Coherent(old(Tables())) ==> (Coherent(Tables()) <==> Safe(old(Tables()), t, secret))
    {
      TurnKeeps(Tables(), t, secret, now);
      TurnsAs(Tables(), t, secret, now);
      if Coherent(Tables()) { TurnCoherentExactly(Tables(), t, secret, now); }
      postponed := TakeTurn(t, now);
      if postponed { deferred := deferred + {t.edge}; }
    }

    /** The turns of trace took the tables from was to what they are. */
    ghost predicate Ran(was: Db, trace: seq<Turn>, now: Time) reads this {
      && Lawful(was) && Honest(was, trace, secret, now) && Tables() == Replay(was, trace, secret, now)
      && Kept(was, Tables())
    }

    /** The rename loop midway: all but the events in rest have had their turn. */
    ghost predicate Midway(was: Db, edge: Edge, trace: seq<Turn>, rest: set<EventId>, now: Time) reads this {
      && Ran(was, trace, now) && PartTrace(was.events, edge, trace, rest)
    }

    /** The next turn of the rename loop. */
    method NextTurn(ghost was: Db, ghost trace: seq<Turn>, ghost rest: set<EventId>, e: EventId, read: Event,
          edge: Edge, now: Time) returns (postponed: bool, ghost t: Turn)
      requires Midway(was, edge, trace, rest, now) && e in rest && read == was.events[e]
      modifies this
      ensures Midway(was, edge, trace + [t], rest - {e}, now)
      ensures postponed == RunTurn(Replay(was, trace, secret, now), t, secret, now).1
      ensures deferred == if postponed then old(deferred) + {edge} else old(deferred)
    {
      ghost var before := Tables();
      var turn := Turn(e, read.status.EventPending?, read.key, edge);
      t := turn;
      postponed := MigrateOne(turn, now);
      ReplaySnoc(was, trace, turn, secret, now);
      KeptTransitive(was, before, Tables());
      PartTraceSnoc(was.events, edge, trace, rest, e);
    }

    method RenameLoop(edge: Edge, now: Time) returns (migrated: bool, ghost trace: seq<Turn>)
      requires Lawful(Tables())
      modifies this
      ensures Ran(old(Tables()), trace, now) && TraceOf(old(events), edge, trace)
      ensures deferred == if SomePostponed(old(Tables()), trace, secret, now) then old(deferred) + {edge}
        else old(deferred)
      ensures migrated <==> SomeRenamed(old(Tables()), trace, secret, now)
    {
      var snapshot := events;
      ghost var was := Tables();
      var rest := set e | e in events && AtSource(events[e], edge);
      migrated, trace := false, [];
      CarriedRefl(dispatches);
      while rest != {}
        invariant Midway(was, edge, trace, rest, now)
        invariant deferred == if SomePostponed(was, trace, secret, now) then old(deferred) + {edge} else old(deferred)
        invariant migrated <==> SomeRenamed(was, trace, secret, now)
        decreases rest
      {
        var e :| e in rest;
        ghost var t;
        var postponed;
        postponed, t := NextTurn(was, trace, rest, e, snapshot[e], edge, now);
        OutcomesSnoc(was, trace, t, secret, now);
        trace := trace + [t];
        if !postponed { migrated := true; }
        rest := rest - {e};
      }
    }

    /** Renames every mutable event at the edge's source, by the statuses and keys read at the start: one
        turn each, in the order of the rows. From coherent tables it ends coherent exactly if every turn
        was safe, and if no turn meets a collision it moves exactly those events. */
    method MigrateIdentity(edge: Edge, now: Time) returns (migrated: bool, ghost trace: seq<Turn>)
      requires Lawful(Tables())
      modifies this
      ensures Ran(old(Tables()), trace, now) && TraceOf(old(events), edge, trace)
      ensures EachOnce(old(events), edge, trace)
      ensures var flags := Outcomes(old(Tables()), trace, |trace|, secret, now);
        Titles(old(events), events, edge, trace, flags, secret)
      ensures deferred == if SomePostponed(old(Tables()), trace, secret, now) then old(deferred) + {edge}
        else old(deferred)
      ensures migrated <==> SomeRenamed(old(Tables()), trace, secret, now)
      ensures Coherent(old(Tables())) ==> (Coherent(Tables()) <==> AllSafe(old(Tables()), trace, secret, now))
      ensures Coherent(old(Tables())) && Untangled(old(events), edge, secret) ==> Coherent(Tables())
      ensures NeverHeld(old(Tables()), trace, secret, now) ==>
        Tables() == old(Tables()).(events := MoveAll(old(events), edge, secret)) && deferred == old(deferred)
          && migrated == SomeAt(old(events), edge)
      ensures NoClash(old(events), edge, secret) ==> NeverHeld(old(Tables()), trace, secret, now)
    {
      migrated, trace := RenameLoop(edge, now);
      ghost var was := old(Tables());
      EdgeCoherent(was, edge, trace, secret, now);
      EdgeFree(was, edge, trace, secret, now);
      EdgeMeans(was, edge, trace, secret, now);
    }

    /** A pass over the queue midway: the edges before i had their turns. */
    ghost predicate InPass(was: Db, trace: seq<Turn>, queue: seq<Edge>, i: nat, moved: bool, now: Time)
      requires i <= |queue|
      reads this
    {
      && Ran(was, trace, now) && (forall t | t in trace :: t.edge in queue)
      && (NeverHeld(was, trace, secret, now) ==>
        && Tables() == was.(events := PassAll(was.events, queue[..i], secret))
        && (moved <==> SomeMoves(was.events, queue[..i])))
      && (ClearPass(was.events, queue, secret) ==> NeverHeld(was, trace, secret, now))
    }

    method PassEdge(ghost was: Db, ghost trace: seq<Turn>, queue: seq<Edge>, i: nat, ghost moved: bool, now: Time)
        returns (matched: bool, ghost longer: seq<Turn>)
      requires i < |queue| && InPass(was, trace, queue, i, moved, now)
      modifies this
      ensures InPass(was, longer, queue, i + 1, moved || matched, now)
      ensures old(deferred) <= deferred <= old(deferred) + {queue[i]}
    {
      ghost var before := Tables();
      ghost var more;
      matched, more := MigrateIdentity(queue[i], now);
      RanOn(was, before, Tables(), trace, more, secret, now);
      NeverHeldAppend(was, trace, more, secret, now);
      PassAllStep(was.events, queue, i, secret);
      longer := trace + more;
    }

    /** One pass over the queue; without collisions it advances every event that some edge leaves. */
    method RunPass(queue: seq<Edge>, now: Time) returns (moved: bool, ghost trace: seq<Turn>)
      requires Lawful(Tables())
      modifies this
      ensures Ran(old(Tables()), trace, now) && forall t | t in trace :: t.edge in queue
      ensures old(deferred) <= deferred && forall x | x in deferred :: x in old(deferred) || x in queue
      ensures NeverHeld(old(Tables()), trace, secret, now) ==>
        && Tables() == old(Tables()).(events := PassAll(old(events), queue, secret))
        && (moved <==> SomeMoves(old(events), queue))
      ensures ClearPass(old(events), queue, secret) ==> NeverHeld(old(Tables()), trace, secret, now)
    {
      moved, trace := false, [];
      ghost var was := Tables();
      CarriedRefl(dispatches);
      for i := 0 to |queue|
        invariant InPass(was, trace, queue, i, moved, now)
        invariant old(deferred) <= deferred && forall x | x in deferred :: x in old(deferred) || x in queue
      {
        var matched;
        matched, trace := PassEdge(was, trace, queue, i, moved, now);
        moved := moved || matched;
      }
      assert queue[..|queue|] == queue;
    }

    method ReadQueue() returns (queue: seq<Edge>)
      ensures |queue| == |deferred| && forall x :: x in queue <==> x in deferred
    {
      queue := [];
      var rest := deferred;
      while rest != {}
        invariant rest <= deferred && |queue| + |rest| == |deferred|
        invariant forall x :: x in queue <==> x in deferred - rest
        decreases rest
      {
        var x :| x in rest;
        queue, rest := queue + [x], rest - {x};
      }
    }

    /** Where the loop is after some passes, if no turn met a collision. */
    ghost predicate OnItsOwn(was: Db, trace: seq<Turn>, queue: seq<Edge>, passes: nat, settled: bool, now: Time)
      reads this
    {
      NeverHeld(was, trace, secret, now) ==>
        && Tables() == AfterPasses(was, queue, passes, secret)
        && (settled ==> AllStuck(events, queue))
        && (Acyclic(queue) && passes > |queue| ==> settled)
    }

    /** The loop after some passes: the turns of trace along queued edges. */
    ghost predicate InLoop(was: Db, trace: seq<Turn>, queue: seq<Edge>, passes: nat, settled: bool, now: Time)
      reads this
    {
      && Ran(was, trace, now) && (forall t | t in trace :: t.edge in queue)
      && OnItsOwn(was, trace, queue, passes, settled, now)
      && (ClearRun(was.events, queue, secret) ==> NeverHeld(was, trace, secret, now))
    }

    /** What a pass that moves nothing, or comes last, says about the events. */
    lemma PassOutcome(was: Db, mid: Db, queue: seq<Edge>, passes: nat, moved: bool)
      requires mid == AfterPasses(was, queue, passes, secret) && Tables() == AfterPass(mid, queue, secret)
      requires moved <==> SomeMoves(mid.events, queue)
      ensures !moved ==> AllStuck(events, queue)
      ensures Acyclic(queue) && passes == |queue| ==> !moved
    {
      if AllStuck(mid.events, queue) { NothingMoved(mid.events, queue, secret); }
      if Acyclic(queue) && passes == |queue| {
        AfterPassesAll(was, queue, passes, secret);
        AllSettled(was.events, queue, secret);
      }
    }

    /** A pass of the loop, after the given number of earlier ones. */
    method OnePass(ghost was: Db, ghost trace: seq<Turn>, ghost passes: nat, queue: seq<Edge>, now: Time)
        returns (moved: bool, ghost more: seq<Turn>)
      requires InLoop(was, trace, queue, passes, false, now)
      requires passes <= |queue| && forall x | x in queue :: x in deferred
      modifies this
      ensures InLoop(was, trace + more, queue, passes + 1, !moved, now) && deferred == old(deferred)
    {
      ghost var before := Tables();
      moved, more := RunPass(queue, now);
      RanOn(was, before, Tables(), trace, more, secret, now);
      NeverHeldAppend(was, trace, more, secret, now);
      AfterPassesAll(was, queue, passes, secret);
      if NeverHeld(was, trace + more, secret, now) { PassOutcome(was, before, queue, passes, moved); }
    }

    lemma BeforeLoop(was: Db, queue: seq<Edge>, now: Time)
      requires Lawful(was) && was == Tables()
      ensures InLoop(was, [], queue, 0, false, now)
    {
      CarriedRefl(dispatches);
    }

    /** Repeats passes over the queue until one moves nothing, at most one more than there are edges. */
    method PassLoop(queue: seq<Edge>, now: Time) returns (settled: bool, passes: nat, ghost trace: seq<Turn>)
      requires Lawful(Tables()) && forall x | x in queue :: x in deferred
      modifies this
      ensures Ran(old(Tables()), trace, now) && (forall t | t in trace :: t.edge in queue)
      ensures passes <= |queue| + 1 && deferred == old(deferred) && (!settled ==> passes == |queue| + 1)
      ensures OnItsOwn(old(Tables()), trace, queue, passes, settled, now)
      ensures ClearRun(old(events), queue, secret) ==> NeverHeld(old(Tables()), trace, secret, now)
    {
      ghost var was := Tables();
      settled, passes, trace := false, 0, [];
      BeforeLoop(was, queue, now);
      while passes <= |queue| && !settled
        invariant InLoop(was, trace, queue, passes, settled, now)
        invariant passes <= |queue| + 1 && deferred == old(deferred)
        decreases |queue| + 1 - passes
      {
        ghost var more;
        var moved;
        moved, more := OnePass(was, trace, passes, queue, now);
        trace := trace + more;
        if !moved { settled := true; }
        passes := passes + 1;
      }
    }

    method ClearEdges(queue: seq<Edge>)
      requires forall x :: x in queue <==> x in deferred
      modifies this`deferred
      ensures deferred == set x | x in old(deferred) && SomeAt(events, x)
    {
      ghost var all := deferred;
      for i := 0 to |queue|
        invariant deferred <= all
        invariant forall x | x in all :: x in deferred <==> (x in queue[..i] ==> SomeAt(events, x))
      {
        if !SomeAt(events, queue[i]) {
          deferred := deferred - {queue[i]};
        }
        assert queue[..i + 1] == queue[..i] + [queue[i]];
      }
      assert queue[..|queue|] == queue;
    }

    /** The fixed-point loop over the deferred renames. If it settles, exactly the edges whose source
        still holds a mutable event stay queued; otherwise all do. From coherent tables it ends coherent
        exactly if every turn was safe. If no turn of the run meets a collision and the queue is acyclic, it
        settles, clears the queue, and leaves every event where no queued edge leaves, reachable from where
        it was, with all dispatches untouched; a clear run meets none, whatever the order of the rows. */
    method ApplyDeferred(now: Time) returns (settled: bool, passes: nat, queue: seq<Edge>, ghost trace: seq<Turn>)
      requires Lawful(Tables())
      modifies this
      ensures Ran(old(Tables()), trace, now) && (forall t | t in trace :: t.edge in old(deferred))
      ensures forall x :: x in queue <==> x in old(deferred)
      ensures passes <= |old(deferred)| + 1
      ensures !settled ==> deferred == old(deferred)
      ensures settled ==> deferred == set x | x in old(deferred) && SomeAt(events, x)
      ensures settled ==> StillNeeded(old(deferred), deferred, events)
      ensures Coherent(old(Tables())) ==> (Coherent(Tables()) <==> AllSafe(old(Tables()), trace, secret, now))
      ensures NeverHeld(old(Tables()), trace, secret, now) ==>
        dispatches == old(dispatches) && AllReach(old(events), events, queue, secret)
      ensures NeverHeld(old(Tables()), trace, secret, now) && Acyclic(queue) ==>
        settled && deferred == {} && AllStuck(events, queue) && NothingToRename(events, queue)
      ensures ClearRun(old(events), queue, secret) ==> NeverHeld(old(Tables()), trace, secret, now)
    {
      queue := ReadQueue();
      ghost var was := Tables();
      settled, passes, trace := PassLoop(queue, now);
      if Coherent(was) { ReplayCoherentExactly(was, trace, secret, now); }
      if NeverHeld(was, trace, secret, now) {
        AfterPassesAll(was, queue, passes, secret);
        PassesReach(was.events, queue, passes, secret);
      }
      if settled { ClearEdges(queue); }
      QueueMeans(old(deferred), queue, events);
    }
  }
}
