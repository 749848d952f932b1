/** Merging the pending event that already holds a rename's destination hash into the event being
    renamed, without touching a claim in flight. */
module RouteCollision {
  import opened AlertRows

  predicate SinkTaken(rows: Rows, e: EventId, sink: string) {
    exists k | k in rows :: rows[k].event == e && rows[k].sink == sink
  }

  predicate ActiveOf(rows: Rows, e: EventId, d: DispatchId) {
    d in rows && rows[d].event == e && Active(rows[d].status)
  }

  /** Converging d would rewrite a claim or drop work the keeper has not closed. */
  predicate Blocks(rows: Rows, keeper: EventId, d: DispatchId)
    requires d in rows
  {
    && SinkTaken(rows, keeper, rows[d].sink)
    && (rows[d].status.InFlight? || !SinkClosed(rows, keeper, rows[d].sink))
  }

  predicate InFlightBlocked(rows: Rows, keeper: EventId, dup: EventId) {
    exists d | d in rows :: ActiveOf(rows, dup, d) && rows[d].status.InFlight? && SinkTaken(rows, keeper, rows[d].sink)
  }

  predicate Deferred(rows: Rows, keeper: EventId, dup: EventId) {
    exists d | d in rows :: ActiveOf(rows, dup, d) && Blocks(rows, keeper, d)
  }

  /** The merge gets as far as d: no claim blocks it and no row up to d does. */
  predicate Reached(rows: Rows, keeper: EventId, dup: EventId, d: DispatchId) {
    && !InFlightBlocked(rows, keeper, dup)
    && forall b | b in rows && ActiveOf(rows, dup, b) && b <= d :: !Blocks(rows, keeper, b)
  }

  function SettledRow(rows: Rows, keeper: EventId, d: DispatchId, now: Time): Dispatch
    requires d in rows
  {
    if SinkTaken(rows, keeper, rows[d].sink) then ResetRow(rows[d], now) else rows[d].(event := keeper)
  }

  function MergedRow(rows: Rows, keeper: EventId, dup: EventId, d: DispatchId, now: Time): Dispatch
    requires d in rows
  {
    if ActiveOf(rows, dup, d) && Reached(rows, keeper, dup, d) then SettledRow(rows, keeper, d, now) else rows[d]
  }

  function MergedRows(rows: Rows, keeper: EventId, dup: EventId, now: Time): Rows {
    map d | d in rows :: MergedRow(rows, keeper, dup, d, now)
  }

  function Merge(db: Db, keeper: EventId, dup: EventId, now: Time): (Db, bool)
    requires dup in db.events
  {
    var deferred := Deferred(db.dispatches, keeper, dup);
    (db.(dispatches := MergedRows(db.dispatches, keeper, dup, now),
         events := if deferred then db.events else db.events[dup := db.events[dup].(status := EventReset)]),
     deferred)
  }

  // ----------------------------------------------------------- what it keeps

  /** A claim in flight keeps its row, worker, token, lease and attempts; at most its event changes. */
  lemma ClaimsVerbatim(rows: Rows, keeper: EventId, dup: EventId, now: Time, d: DispatchId)
    requires d in rows && rows[d].status.InFlight?
    ensures MergedRows(rows, keeper, dup, now)[d] in {rows[d], rows[d].(event := keeper)}
    ensures rows[d].event != dup ==> MergedRows(rows, keeper, dup, now)[d] == rows[d]
  {
    if ActiveOf(rows, dup, d) && Reached(rows, keeper, dup, d) {
      assert !Blocks(rows, keeper, d);
    }
  }

  lemma MergeKeepsSchema(db: Db, keeper: EventId, dup: EventId, now: Time)
    requires Schema(db) && keeper in db.events && dup in db.events && keeper != dup
    ensures Schema(Merge(db, keeper, dup, now).0)
  {
    var rows := db.dispatches;
    var n := MergedRows(rows, keeper, dup, now);
    forall c, d | c in n && d in n && SameSlot(n[c], n[d]) ensures c == d {
      if rows[c].event == rows[d].event {
        assert SameSlot(rows[c], rows[d]);
      }
    }
  }

  /** No sink is lost: what was active on either event is still active on the same row, or the keeper
      has already closed that sink. */
  lemma NoSinkLost(rows: Rows, keeper: EventId, dup: EventId, now: Time, d: DispatchId)
    requires keeper != dup && (ActiveOf(rows, keeper, d) || ActiveOf(rows, dup, d))
    ensures var n := MergedRows(rows, keeper, dup, now);
      Active(n[d].status) || SinkClosed(n, keeper, rows[d].sink)
  {
    var n := MergedRows(rows, keeper, dup, now);
    if !Active(n[d].status) {
      assert !Blocks(rows, keeper, d);
      var k :| k in rows && rows[k].event == keeper && rows[k].sink == rows[d].sink && Closed(rows[k].status);
      assert n[k] == rows[k];
    }
  }

  /** A merge that moves nothing was stopped by a claim or by the row it would settle first; a merge
      that is deferred by a later row has settled the rows before it already. */
  lemma IntactExactly(rows: Rows, keeper: EventId, dup: EventId, now: Time, first: DispatchId)
    requires keeper != dup && ActiveOf(rows, dup, first)
    requires forall d: DispatchId | d in rows && ActiveOf(rows, dup, d) :: first <= d
    ensures MergedRows(rows, keeper, dup, now) == rows <==>
      InFlightBlocked(rows, keeper, dup) || Blocks(rows, keeper, first)
  {
    var n := MergedRows(rows, keeper, dup, now);
    if InFlightBlocked(rows, keeper, dup) || Blocks(rows, keeper, first) {
      forall d | d in rows ensures n[d] == rows[d] {
        assert ActiveOf(rows, dup, d) ==> !Reached(rows, keeper, dup, d);
      }
    } else {
      assert Reached(rows, keeper, dup, first);
      assert n[first] != rows[first];
    }
  }

  /** Event 1 waits for x and y; event 2, enqueued after it under another hash, waits for y. */
  function HalfShared(): Rows {
    map[1 := Dispatch(1, "x", Pending, "", "", 0, 0, 0, 0, 0),
        2 := Dispatch(1, "y", Pending, "", "", 0, 0, 0, 0, 0),
        3 := Dispatch(2, "y", Pending, "", "", 0, 0, 0, 0, 0)]
  }

  /** A merge of event 1 into event 2 that is deferred by its second row, after the first was moved. */
  lemma DeferredAfterMoving(now: Time)
    ensures Deferred(HalfShared(), 2, 1)
    ensures MergedRows(HalfShared(), 2, 1, now) == HalfShared()[1 := HalfShared()[1].(event := 2)] != HalfShared()
  {
    var rows := HalfShared();
    assert "x"[0] != "y"[0] && rows[3].event == 2 && rows[3].sink == "y";
    assert SinkTaken(rows, 2, "y") && !SinkTaken(rows, 2, "x") && !SinkClosed(rows, 2, "y");
    assert Blocks(rows, 2, 2) && !Blocks(rows, 2, 1);
    assert Reached(rows, 2, 1, 1) && !Reached(rows, 2, 1, 2);
    assert MergedRows(rows, 2, 1, now)[1] == rows[1].(event := 2);
  }

  /** The duplicate has active rows left exactly when the merge was deferred, and then only rows that
      were already its own. */
  lemma DuplicateDrained(rows: Rows, keeper: EventId, dup: EventId, now: Time)
    requires keeper != dup
    ensures HasActive(MergedRows(rows, keeper, dup, now), dup) <==> Deferred(rows, keeper, dup)
  {
    var n := MergedRows(rows, keeper, dup, now);
    if Deferred(rows, keeper, dup) {
      var d :| d in rows && ActiveOf(rows, dup, d) && Blocks(rows, keeper, d);
      assert n[d] == rows[d];
    }
  }

  lemma OthersKeepActivity(rows: Rows, keeper: EventId, dup: EventId, now: Time, e: EventId)
    requires e != dup && (e == keeper ==> HasActive(rows, keeper))
    ensures HasActive(MergedRows(rows, keeper, dup, now), e) <==> HasActive(rows, e)
  {
    var n := MergedRows(rows, keeper, dup, now);
    if HasActive(rows, e) {
      var d :| d in rows && rows[d].event == e && Active(rows[d].status);
      assert n[d] == rows[d];
    }
    if HasActive(n, e) && e != keeper {
      var d :| d in n && n[d].event == e && Active(n[d].status);
      assert n[d] == rows[d];
    }
  }

  /** The merge keeps pending events and undelivered work in step, and pending hashes unique. */
  lemma MergeKeepsCoherence(db: Db, keeper: EventId, dup: EventId, now: Time)
    requires Schema(db) && PendingIffActive(db) && UniquePending(db.events)
    requires keeper in db.events && dup in db.events && keeper != dup
    requires db.events[keeper].status.EventPending? && db.events[dup].status.EventPending?
    ensures var n := Merge(db, keeper, dup, now).0; Schema(n) && PendingIffActive(n) && UniquePending(n.events)
  {
    var n := Merge(db, keeper, dup, now).0;
    MergeKeepsSchema(db, keeper, dup, now);
    DuplicateDrained(db.dispatches, keeper, dup, now);
    forall e | e in n.events ensures n.events[e].status.EventPending? <==> HasActive(n.dispatches, e) {
      if e != dup { OthersKeepActivity(db.dispatches, keeper, dup, now, e); }
    }
    forall e, f | e in n.events && f in n.events && Rivals(n.events[e], n.events[f]) ensures e == f {
      assert Rivals(db.events[e], db.events[f]);
    }
  }

  /** Once the holder of the destination hash is merged away, the keeper can take that hash. */
  lemma RetargetStaysUnique(db: Db, keeper: EventId, dup: EventId, now: Time, ev: Event)
    requires UniquePending(db.events) && keeper in db.events && dup in db.events && keeper != dup
    requires db.events[dup].status.EventPending? && db.events[dup].hash == ev.hash
    requires !Merge(db, keeper, dup, now).1
    ensures UniquePending(Merge(db, keeper, dup, now).0.events[keeper := ev])
  {
    var m := Merge(db, keeper, dup, now).0.events[keeper := ev];
    forall e, f | e in m && f in m && Rivals(m[e], m[f]) ensures e == f {
      if e != keeper && f != keeper {
        assert Rivals(db.events[e], db.events[f]);
      } else if e != keeper {
        assert Rivals(db.events[e], db.events[dup]);
      } else if f != keeper {
        assert Rivals(db.events[dup], db.events[f]);
      }
    }
  }
}
