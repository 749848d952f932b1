/** What every run of enqueue, claim, deliver, record and prune keeps. */
module OutboxSafety {
  import opened AlertRows
  import opened OutboxSpec

  // -------------------------------------------------- the table invariant

  /** Active rows still have an attempt left; no row ever exceeds the limit. */
  ghost predicate AttemptsBounded(rows: Rows, max: int) {
    forall d | d in rows :: rows[d].attempts <= max && (Active(rows[d].status) ==> rows[d].attempts < max)
  }

  ghost predicate Inv(db: Db, max: int) {
    && Schema(db)
    && UniquePending(db.events)
    && StatusDerived(db)
    && AttemptsBounded(db.dispatches, max)
  }

  /** An event is pending exactly while some dispatch of it is pending or in flight. */
  lemma PendingExactlyWhileActive(db: Db)
    requires StatusDerived(db)
    ensures PendingIffActive(db)
  {
  }

  predicate SameClass(s: DispatchStatus, t: DispatchStatus) {
    s == t || (Active(s) && Active(t)) || (Closed(s) && Closed(t))
  }

  /** The rows of e are the same rows, and each keeps its class. */
  ghost predicate SameRows(a: Rows, b: Rows, e: EventId) {
    && (forall d | d in a && a[d].event == e :: d in b && b[d].event == e && SameClass(a[d].status, b[d].status))
    && (forall d | d in b && b[d].event == e :: d in a && a[d].event == e)
  }

  lemma DerivedFrame(a: Rows, b: Rows, e: EventId)
    requires SameRows(a, b, e)
    ensures DerivedStatus(a, e) == DerivedStatus(b, e)
  {
    assert HasActive(a, e) == HasActive(b, e);
    assert HasClosed(a, e) == HasClosed(b, e);
    assert HasStatus(a, e, DeadLettered) == HasStatus(b, e, DeadLettered);
    assert HasStatus(a, e, Reset) == HasStatus(b, e, Reset);
  }

  // ---------------------------------------------------------------- enqueue

  /** n is m with fresh pending rows of event e added. */
  ghost predicate Extended(m: Db, n: Db, e: EventId) {
    && n.events == m.events && n.lastEvent == m.lastEvent && n.lastDispatch >= m.lastDispatch
    && (forall d | d in m.dispatches :: d in n.dispatches && n.dispatches[d] == m.dispatches[d])
    && (forall d | d in n.dispatches && d !in m.dispatches ::
          d > m.lastDispatch && n.dispatches[d].event == e && n.dispatches[d].status.Pending?
            && n.dispatches[d].attempts == 0)
  }

  lemma AddDispatchExtends(db: Db, e: EventId, sink: string, at: Time)
    requires Schema(db) && e in db.events
    ensures var n := AddDispatch(db, e, sink, at); Extended(db, n, e) && Schema(n) && HasSink(n.dispatches, e, sink)
  {
    var n := AddDispatch(db, e, sink, at);
    if n != db {
      assert n.dispatches[n.lastDispatch].sink == sink;
      forall c, d | c in n.dispatches && d in n.dispatches && SameSlot(n.dispatches[c], n.dispatches[d])
        ensures c == d
      {
        if c in db.dispatches && d in db.dispatches { assert SameSlot(db.dispatches[c], db.dispatches[d]); }
      }
    }
  }

  lemma SinkKept(m: Db, n: Db, e: EventId, f: EventId, sink: string)
    requires Extended(m, n, e) && HasSink(m.dispatches, f, sink)
    ensures HasSink(n.dispatches, f, sink)
  {
    var d :| d in m.dispatches && m.dispatches[d].event == f && m.dispatches[d].sink == sink;
    assert n.dispatches[d].sink == sink;
  }

  lemma {:induction false} AddDispatchesExtends(db: Db, e: EventId, sinks: seq<string>, at: Time)
    requires Schema(db) && e in db.events
    ensures var n := AddDispatches(db, e, sinks, at);
      Extended(db, n, e) && Schema(n) && forall s | s in sinks :: HasSink(n.dispatches, e, s)
  {
    if sinks != [] {
      var k := |sinks| - 1;
      var m := AddDispatches(db, e, sinks[..k], at);
      var n := AddDispatch(m, e, sinks[k], at);
      AddDispatchesExtends(db, e, sinks[..k], at);
      AddDispatchExtends(m, e, sinks[k], at);
      forall s | s in sinks ensures HasSink(n.dispatches, e, s) {
        if s != sinks[k] {
          assert s in sinks[..k];
          SinkKept(m, n, e, e, s);
        }
      }
    }
  }

  /** When only fresh rows of the pending event e were added and e has a row, every status stands. */
  lemma ExtendedStatus(m: Db, n: Db, e: EventId)
    requires Extended(m, n, e) && e in m.events && m.events[e].status.EventPending?
    requires forall f | f in m.events && f != e :: m.events[f].status == DerivedStatus(m.dispatches, f)
    requires HasActive(n.dispatches, e)
    ensures StatusDerived(n)
  {
    forall f | f in n.events ensures n.events[f].status == DerivedStatus(n.dispatches, f) {
      if f != e { DerivedFrame(m.dispatches, n.dispatches, f); }
    }
  }

  lemma EnqueueExisting(db: Db, e: EventId, sinks: seq<string>, at: Time, max: int)
    requires Inv(db, max) && max >= 1 && e in db.events && HasActive(db.dispatches, e)
    ensures Inv(AddDispatches(db, e, sinks, at), max)
  {
    var n := AddDispatches(db, e, sinks, at);
    AddDispatchesExtends(db, e, sinks, at);
    var d :| d in db.dispatches && db.dispatches[d].event == e && Active(db.dispatches[d].status);
    assert n.dispatches[d].event == e;
    ExtendedStatus(db, n, e);
  }

  lemma InsertKeepsKeys(db: Db, r: Request, h: Hash)
    requires Schema(db) && UniquePending(db.events)
    requires !exists e :: PendingWith(db, h, e)
    ensures Schema(InsertEvent(db, r, h)) && UniquePending(InsertEvent(db, r, h).events)
  {
    var m := InsertEvent(db, r, h);
    forall e, f | e in m.events && f in m.events && Rivals(m.events[e], m.events[f]) ensures e == f {
      if e in db.events && f in db.events {
        assert Rivals(db.events[e], db.events[f]);
      } else if e in db.events {
        assert PendingWith(db, h, e) || e == f;
      } else if f in db.events {
        assert PendingWith(db, h, f) || e == f;
      }
    }
  }

  lemma EnqueueInserted(db: Db, r: Request, h: Hash, max: int)
    requires Inv(db, max) && max >= 1 && r.sinks != []
    requires !exists e :: PendingWith(db, h, e)
    ensures Inv(AddDispatches(InsertEvent(db, r, h), db.lastEvent + 1, r.sinks, r.createdAt), max)
  {
    var e := db.lastEvent + 1;
    var m := InsertEvent(db, r, h);
    var n := AddDispatches(m, e, r.sinks, r.createdAt);
    InsertKeepsKeys(db, r, h);
    AddDispatchesExtends(m, e, r.sinks, r.createdAt);
    assert HasSink(n.dispatches, e, r.sinks[0]);
    var d :| d in n.dispatches && n.dispatches[d].event == e && n.dispatches[d].sink == r.sinks[0];
    assert d !in m.dispatches;
    ExtendedStatus(m, n, e);
  }

  /** Enqueue keeps the invariant and never reaches the conflict without a pending row. */
  lemma EnqueueKeeps(db: Db, r: Request, cooldown: int, secret: nat, keyCurrent: bool, max: int)
    requires Inv(db, max) && max >= 1
    ensures Inv(Enqueue(db, r, cooldown, secret, keyCurrent).0, max)
    ensures Enqueue(db, r, cooldown, secret, keyCurrent).1 != Conflict
  {
    var h := Hmac(secret, r.key);
    var (n, res) := Enqueue(db, r, cooldown, secret, keyCurrent);
    PendingExactlyWhileActive(db);
    if res.Existing? {
      EnqueueExisting(db, res.id, r.sinks, r.createdAt, max);
    } else if res.Inserted? {
      EnqueueInserted(db, r, h, max);
    }
  }

  /** What an enqueue call adds: it rewrites no row, and a stored request is one pending event of its
      hash with a row for every requested sink; a refused or suppressed one changes nothing. */
  lemma EnqueueAdds(db: Db, r: Request, cooldown: int, secret: nat, keyCurrent: bool)
    requires Schema(db)
    ensures var (n, res) := Enqueue(db, r, cooldown, secret, keyCurrent);
      && (forall e | e in db.events :: e in n.events && n.events[e] == db.events[e])
      && (forall d | d in db.dispatches :: d in n.dispatches && n.dispatches[d] == db.dispatches[d])
      && (forall d | d in n.dispatches && d !in db.dispatches ::
            d > db.lastDispatch && n.dispatches[d].status.Pending? && n.dispatches[d].attempts == 0)
      && n.lastDispatch >= db.lastDispatch
      && (if res.Inserted? || res.Existing? then
            PendingWith(n, Hmac(secret, r.key), res.id) && forall s | s in r.sinks :: HasSink(n.dispatches, res.id, s)
          else n == db)
  {
    var h := Hmac(secret, r.key);
    var (n, res) := Enqueue(db, r, cooldown, secret, keyCurrent);
    if res.Existing? {
      AddDispatchesExtends(db, res.id, r.sinks, r.createdAt);
    } else if res.Inserted? {
      AddDispatchesExtends(InsertEvent(db, r, h), res.id, r.sinks, r.createdAt);
    }
  }

  // ------------------------------------------------------------------ claim

  /** n has the rows of m with changed columns but the same owners and sinks. */
  ghost predicate SameSlots(m: Rows, n: Rows) {
    n.Keys == m.Keys && forall d | d in m :: n[d].event == m[d].event && n[d].sink == m[d].sink
  }

  lemma SchemaFrame(m: Db, n: Db)
    requires Schema(m) && n.lastEvent == m.lastEvent && n.lastDispatch == m.lastDispatch
    requires n.events.Keys == m.events.Keys && SameSlots(m.dispatches, n.dispatches)
    ensures Schema(n)
  {
    forall c, d | c in n.dispatches && d in n.dispatches && SameSlot(n.dispatches[c], n.dispatches[d]) ensures c == d {
      assert SameSlot(m.dispatches[c], m.dispatches[d]);
    }
  }

  /** Events only change their status, and none becomes pending. */
  ghost predicate OnlyEnds(m: Events, n: Events) {
    && n.Keys == m.Keys
    && forall e | e in m ::
      && n[e] == m[e].(status := n[e].status)
      && (!m[e].status.EventPending? ==> n[e] == m[e])
  }

  lemma UniqueFrame(m: Events, n: Events)
    requires UniquePending(m) && OnlyEnds(m, n)
    ensures UniquePending(n)
  {
    forall e, f | e in n && f in n && Rivals(n[e], n[f]) ensures e == f {
      assert Rivals(m[e], m[f]);
    }
  }

  /** Dead-lettering can only end an event, never reopen one. */
  lemma DeadLetterOnlyEnds(db: Db, now: Time, max: int)
    requires StatusDerived(db)
    ensures OnlyEnds(db.events, DeadLetterExpired(db, now, max).events)
  {
    forall e | e in db.events && e in ExpiredEvents(db.dispatches, now, max) ensures db.events[e].status.EventPending? {
      var d :| d in db.dispatches && OutOfAttempts(db.dispatches[d], now, max) && db.dispatches[d].event == e;
      assert HasActive(db.dispatches, e);
    }
  }

  lemma DeadLetterStatus(db: Db, now: Time, max: int)
    requires StatusDerived(db)
    ensures StatusDerived(DeadLetterExpired(db, now, max))
  {
    var n := DeadLetterExpired(db, now, max);
    forall e | e in n.events ensures n.events[e].status == DerivedStatus(n.dispatches, e) {
      if e !in ExpiredEvents(db.dispatches, now, max) {
        forall d | d in db.dispatches && db.dispatches[d].event == e ensures n.dispatches[d] == db.dispatches[d] {
          assert !OutOfAttempts(db.dispatches[d], now, max);
        }
        DerivedFrame(db.dispatches, n.dispatches, e);
      }
    }
  }

  lemma DeadLetterConstraints(db: Db, now: Time, max: int)
    requires Schema(db) && StatusDerived(db) && UniquePending(db.events)
    ensures Schema(DeadLetterExpired(db, now, max)) && UniquePending(DeadLetterExpired(db, now, max).events)
  {
    var n := DeadLetterExpired(db, now, max);
    SchemaFrame(db, n);
    DeadLetterOnlyEnds(db, now, max);
    UniqueFrame(db.events, n.events);
  }

  lemma DeadLetterAttempts(db: Db, now: Time, max: int)
    requires AttemptsBounded(db.dispatches, max)
    ensures AttemptsBounded(DeadLetterExpired(db, now, max).dispatches, max)
  {
  }

  lemma DeadLetterKeeps(db: Db, now: Time, max: int)
    requires Inv(db, max)
    ensures Inv(DeadLetterExpired(db, now, max), max)
  {
    DeadLetterConstraints(db, now, max);
    DeadLetterAttempts(db, now, max);
    DeadLetterStatus(db, now, max);
  }

  lemma ClaimRowsStatus(m: Db, picked: set<DispatchId>, worker: string, claim: string, now: Time, duration: int,
        max: int)
    requires StatusDerived(m) && picked <= ClaimableIds(m, now, max)
    ensures StatusDerived(ClaimRows(m, picked, worker, claim, now, duration))
  {
    var n := ClaimRows(m, picked, worker, claim, now, duration);
    forall e | e in n.events ensures n.events[e].status == DerivedStatus(n.dispatches, e) {
      DerivedFrame(m.dispatches, n.dispatches, e);
    }
  }

  lemma ClaimRowsKeeps(m: Db, picked: set<DispatchId>, worker: string, claim: string, now: Time, duration: int,
        max: int)
    requires Inv(m, max) && picked <= ClaimableIds(m, now, max)
    ensures Inv(ClaimRows(m, picked, worker, claim, now, duration), max)
  {
    SchemaFrame(m, ClaimRows(m, picked, worker, claim, now, duration));
    ClaimRowsStatus(m, picked, worker, claim, now, duration, max);
  }

  lemma ClaimKeeps(db: Db, picked: set<DispatchId>, worker: string, claim: string, now: Time, duration: int, max: int)
    requires Inv(db, max)
    requires picked <= ClaimableIds(DeadLetterExpired(db, now, max), now, max)
    ensures var n := Claim(db, picked, worker, claim, now, duration, max); Inv(n, max) && OnlyEnds(db.events, n.events)
  {
    DeadLetterKeeps(db, now, max);
    DeadLetterOnlyEnds(db, now, max);
    ClaimRowsKeeps(DeadLetterExpired(db, now, max), picked, worker, claim, now, duration, max);
  }

  // ----------------------------------------------------------------- record

  /** Rewriting one row in its slot leaves the other events' statuses alone. */
  lemma RowFrame(rows: Rows, d: DispatchId, row: Dispatch, e: EventId)
    requires d in rows && SameSlot(rows[d], row) && (e != row.event || SameClass(rows[d].status, row.status))
    ensures DerivedStatus(rows, e) == DerivedStatus(rows[d := row], e)
  {
    DerivedFrame(rows, rows[d := row], e);
  }

  lemma NoteKeeps(db: Db, d: DispatchId, now: Time, max: int)
    requires Inv(db, max) && d in db.dispatches
    ensures Inv(db.(dispatches := db.dispatches[d := db.dispatches[d].(updatedAt := now)]), max)
  {
    var row := db.dispatches[d].(updatedAt := now);
    var n := db.(dispatches := db.dispatches[d := row]);
    SchemaFrame(db, n);
    forall e | e in n.events ensures n.events[e].status == DerivedStatus(n.dispatches, e) {
      RowFrame(db.dispatches, d, row, e);
    }
  }

  /** A row that had work is rewritten in its slot, and its event's status follows. */
  lemma CompleteStatus(db: Db, d: DispatchId, row: Dispatch)
    requires StatusDerived(db) && d in db.dispatches && Active(db.dispatches[d].status)
    requires SameSlot(db.dispatches[d], row)
    ensures var n := SyncEvents(db.(dispatches := db.dispatches[d := row]), {row.event});
      StatusDerived(n) && OnlyEnds(db.events, n.events)
  {
    var n := SyncEvents(db.(dispatches := db.dispatches[d := row]), {row.event});
    assert HasActive(db.dispatches, row.event);
    forall e | e in n.events ensures n.events[e].status == DerivedStatus(n.dispatches, e) {
      if e != row.event { RowFrame(db.dispatches, d, row, e); }
    }
  }

  lemma CompleteConstraints(db: Db, d: DispatchId, row: Dispatch)
    requires Schema(db) && UniquePending(db.events) && StatusDerived(db)
    requires d in db.dispatches && Active(db.dispatches[d].status) && SameSlot(db.dispatches[d], row)
    ensures var n := SyncEvents(db.(dispatches := db.dispatches[d := row]), {row.event});
      Schema(n) && UniquePending(n.events)
  {
    var n := SyncEvents(db.(dispatches := db.dispatches[d := row]), {row.event});
    CompleteStatus(db, d, row);
    SchemaFrame(db, n);
    UniqueFrame(db.events, n.events);
  }

  lemma CompleteAttempts(rows: Rows, d: DispatchId, status: DispatchStatus, now: Time, p: Policy)
    requires AttemptsBounded(rows, p.maxAttempts) && d in rows && rows[d].status.InFlight?
    requires status.Pending? || Terminal(status)
    ensures AttemptsBounded(rows[d := CompletedRow(rows[d], status, now, p)], p.maxAttempts)
  {
  }

  lemma CompleteKeeps(db: Db, d: DispatchId, status: DispatchStatus, now: Time, p: Policy)
    requires Inv(db, p.maxAttempts) && d in db.dispatches && db.dispatches[d].status.InFlight?
    requires status.Pending? || Terminal(status)
    ensures var done := CompletedRow(db.dispatches[d], status, now, p);
      var n := SyncEvents(db.(dispatches := db.dispatches[d := done]), {done.event});
      Inv(n, p.maxAttempts) && OnlyEnds(db.events, n.events)
  {
    var done := CompletedRow(db.dispatches[d], status, now, p);
    CompleteStatus(db, d, done);
    CompleteConstraints(db, d, done);
    CompleteAttempts(db.dispatches, d, status, now, p);
  }

  /** What a record call does to the tables, by its answer. */
  lemma RecordCases(db: Db, d: DispatchId, worker: string, claim: string, status: DispatchStatus, now: Time,
        p: Policy, keyCurrent: bool)
    ensures var (n, res) := Record(db, d, worker, claim, status, now, p, keyCurrent);
      if res.Recorded? then
        && (status.Pending? || Terminal(status)) && d in db.dispatches && db.dispatches[d].status.InFlight?
        && var done := CompletedRow(db.dispatches[d], status, now, p);
        n == SyncEvents(db.(dispatches := db.dispatches[d := done]), {done.event})
      else if res.LeaseGone? then
        d in db.dispatches && n == db.(dispatches := db.dispatches[d := db.dispatches[d].(updatedAt := now)])
      else n == db
  {
  }

  lemma RecordKeeps(db: Db, d: DispatchId, worker: string, claim: string, status: DispatchStatus, now: Time,
        p: Policy, keyCurrent: bool)
    requires Inv(db, p.maxAttempts)
    ensures var n := Record(db, d, worker, claim, status, now, p, keyCurrent).0;
      Inv(n, p.maxAttempts) && OnlyEnds(db.events, n.events)
  {
    RecordCases(db, d, worker, claim, status, now, p, keyCurrent);
    var (n, res) := Record(db, d, worker, claim, status, now, p, keyCurrent);
    if res.Recorded? {
      CompleteKeeps(db, d, status, now, p);
    } else if res.LeaseGone? {
      NoteKeeps(db, d, now, p.maxAttempts);
    }
  }

  /** Only the holder of a live lease changes a status or an attempt count, and then only on its own row. */
  lemma OnlyLiveHolderCompletes(db: Db, d: DispatchId, worker: string, claim: string, status: DispatchStatus,
        now: Time, p: Policy, keyCurrent: bool)
    ensures var (n, res) := Record(db, d, worker, claim, status, now, p, keyCurrent);
      && n.dispatches.Keys == db.dispatches.Keys
      && (forall c | c in db.dispatches && (c != d || !res.Recorded?) ::
            n.dispatches[c].status == db.dispatches[c].status && n.dispatches[c].attempts == db.dispatches[c].attempts)
      && (res.Recorded? ==>
            && d in db.dispatches && db.dispatches[d].status.InFlight? && Holds(db.dispatches[d], worker, claim)
            && db.dispatches[d].lease > now
            && n.dispatches[d].attempts == db.dispatches[d].attempts + 1
            && !n.dispatches[d].status.InFlight? && Holds(n.dispatches[d], worker, claim))
      && (!res.Recorded? ==> n.events == db.events)
  {
  }

  /** Repeating a completed record call, at any later time, changes nothing and returns the same row,
      also when the first call was promoted from pending to dead-lettered. */
  lemma RecordIdempotent(db: Db, d: DispatchId, worker: string, claim: string, status: DispatchStatus, now: Time,
        later: Time, p: Policy)
    requires Record(db, d, worker, claim, status, now, p, true).1.Recorded?
    ensures var (n, res) := Record(db, d, worker, claim, status, now, p, true);
      Record(n, d, worker, claim, status, later, p, true) == (n, Replayed(res.row))
  {
    var (n, res) := Record(db, d, worker, claim, status, now, p, true);
    assert n.dispatches[d] == res.row;
    assert n.dispatches[d].event in n.events;
  }

  // ------------------------------------------------------------------ prune

  lemma DeleteSchema(db: Db, ids: set<EventId>)
    requires Schema(db) && UniquePending(db.events)
    ensures Schema(DeleteEvents(db, ids)) && UniquePending(DeleteEvents(db, ids).events)
  {
    var n := DeleteEvents(db, ids);
    forall c, d | c in n.dispatches && d in n.dispatches && SameSlot(n.dispatches[c], n.dispatches[d]) ensures c == d {
      assert SameSlot(db.dispatches[c], db.dispatches[d]);
    }
    forall e, f | e in n.events && f in n.events && Rivals(n.events[e], n.events[f]) ensures e == f {
      assert Rivals(db.events[e], db.events[f]);
    }
  }

  /** Pruning keeps the invariant and deletes no undelivered work: every row it takes is neither
      pending nor in flight. */
  lemma PruneKeeps(db: Db, ids: set<EventId>, cutoff: Time, max: int)
    requires Inv(db, max) && ids <= PrunableIds(db, cutoff)
    ensures Inv(DeleteEvents(db, ids), max)
    ensures forall d | d in db.dispatches && d !in DeleteEvents(db, ids).dispatches :: !Active(db.dispatches[d].status)
  {
    var n := DeleteEvents(db, ids);
    DeleteSchema(db, ids);
    forall e | e in n.events ensures n.events[e].status == DerivedStatus(n.dispatches, e) {
      DerivedFrame(db.dispatches, n.dispatches, e);
    }
    forall d | d in db.dispatches && Active(db.dispatches[d].status) ensures d in n.dispatches {
      assert HasActive(db.dispatches, db.dispatches[d].event);
    }
  }
}
