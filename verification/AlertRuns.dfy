/** Whole runs that mix every transaction on the outbox tables: enqueue, claim, record and prune with the
    reset after a lost key and with route renames. */
module AlertRuns {
  import opened AlertRows
  import opened OutboxSafety
  import opened OutboxSpec
  import opened RouteTurns
  import opened StartupRepair

  /** Rename is a rename transaction: the turns that it ran. */
  datatype Step =
    | DoEnqueue(request: Request, cooldown: int, secret: nat, keyCurrent: bool)
    | DoClaim(worker: string, claim: string, now: Time, duration: int, max: int, picked: set<DispatchId>)
    | DoRecord(dispatch: DispatchId, worker: string, claim: string, status: DispatchStatus, now: Time,
      policy: Policy, keyCurrent: bool)
    | DoPrune(ids: set<EventId>, cutoff: Time)
    | DoReset(now: Time)
    | DoRename(trace: seq<Turn>, secret: nat, now: Time)

  type Steps = seq<Step>

  ghost predicate Enabled(db: Db, s: Step) {
    match s
    case DoClaim(_, _, now, _, max, picked) => picked <= ClaimableIds(DeadLetterExpired(db, now, max), now, max)
    case DoPrune(ids, cutoff) => ids <= PrunableIds(db, cutoff)
    case DoRename(trace, secret, now) => Honest(db, trace, secret, now)
    case _ => true
  }

  ghost function Apply(db: Db, s: Step): Db {
    match s
    case DoEnqueue(r, cooldown, secret, keyCurrent) => Enqueue(db, r, cooldown, secret, keyCurrent).0
    case DoClaim(worker, claim, now, duration, max, picked) => Claim(db, picked, worker, claim, now, duration, max)
    case DoRecord(d, worker, claim, status, now, p, keyCurrent) =>
      Record(db, d, worker, claim, status, now, p, keyCurrent).0
    case DoPrune(ids, _) => DeleteEvents(db, ids)
    case DoReset(now) => AfterReset(db, now)
    case DoRename(trace, secret, now) => Replay(db, trace, secret, now)
  }

  /** The only steps that can do harm are renames, by an unsafe turn. */
  ghost predicate SafeStep(db: Db, s: Step) {
    s.DoRename? ==> AllSafe(db, s.trace, s.secret, s.now)
  }

  // ---- Enqueue ----

  /** Fresh rows of one event make nobody else busy. */
  lemma ExtendedActive(m: Db, n: Db, e: EventId, f: EventId)
    requires Extended(m, n, e)
    ensures HasActive(m.dispatches, f) ==> HasActive(n.dispatches, f)
    ensures f != e && HasActive(n.dispatches, f) ==> HasActive(m.dispatches, f)
  {
    if HasActive(m.dispatches, f) {
      var d :| d in m.dispatches && m.dispatches[d].event == f && Active(m.dispatches[d].status);
      assert n.dispatches[d] == m.dispatches[d];
    }
  }

  lemma ExistingCoherent(db: Db, e: EventId, sinks: seq<string>, at: Time)
    requires Coherent(db) && e in db.events && db.events[e].status.EventPending?
    ensures Coherent(AddDispatches(db, e, sinks, at))
  {
    AddDispatchesExtends(db, e, sinks, at);
    forall f | f in db.events ensures HasActive(AddDispatches(db, e, sinks, at).dispatches, f) <==>
      HasActive(db.dispatches, f) {
      ExtendedActive(db, AddDispatches(db, e, sinks, at), e, f);
    }
  }

  lemma InsertLawful(db: Db, r: Request, h: Hash)
    requires Coherent(db) && !exists e :: PendingWith(db, h, e)
    ensures Lawful(InsertEvent(db, r, h))
  {
    var n := InsertEvent(db, r, h).events;
    forall e | e in db.events && db.events[e].status.EventPending? ensures db.events[e].hash != h {
      assert !PendingWith(db, h, e);
    }
    forall e, f | e in n && f in n && Rivals(n[e], n[f]) ensures e == f {
      if e in db.events && f in db.events { assert Rivals(db.events[e], db.events[f]); }
    }
  }

  lemma InsertedCoherent(db: Db, r: Request, h: Hash)
    requires Coherent(db) && r.sinks != [] && !exists e :: PendingWith(db, h, e)
    ensures Coherent(AddDispatches(InsertEvent(db, r, h), db.lastEvent + 1, r.sinks, r.createdAt))
  {
    var (m, id) := (InsertEvent(db, r, h), db.lastEvent + 1);
    var n := AddDispatches(m, id, r.sinks, r.createdAt);
    InsertLawful(db, r, h);
    AddDispatchesExtends(m, id, r.sinks, r.createdAt);
    assert HasSink(n.dispatches, id, r.sinks[0]);
    var d :| d in n.dispatches && n.dispatches[d].event == id && n.dispatches[d].sink == r.sinks[0];
    assert d !in m.dispatches && Active(n.dispatches[d].status);
    forall f | f in n.events && f != id ensures n.events[f].status.EventPending? <==> HasActive(n.dispatches, f) {
      ExtendedActive(m, n, id, f);
    }
  }

  lemma EnqueueCoherent(db: Db, r: Request, cooldown: int, secret: nat, keyCurrent: bool)
    requires Coherent(db)
    ensures Coherent(Enqueue(db, r, cooldown, secret, keyCurrent).0)
  {
    var res := Enqueue(db, r, cooldown, secret, keyCurrent).1;
    if res.Existing? {
      ExistingCoherent(db, res.id, r.sinks, r.createdAt);
    } else if res.Inserted? {
      InsertedCoherent(db, r, Hmac(secret, r.key));
    }
  }

  // ---- Transactions that rewrite rows in place ----

  /** Statuses that follow the rows of their events, where the events concerned had work before. */
  lemma InPlaceCoherent(db: Db, rows: Rows, ids: set<EventId>)
    requires Coherent(db) && SameSlots(db.dispatches, rows)
    requires forall e | e in ids && e in db.events :: HasActive(db.dispatches, e)
    requires forall e | e in db.events && e !in ids :: HasActive(rows, e) <==> HasActive(db.dispatches, e)
    ensures Coherent(SyncEvents(db.(dispatches := rows), ids))
  {
    var n := SyncEvents(db.(dispatches := rows), ids);
    SchemaFrame(db, n);
    UniqueFrame(db.events, n.events);
  }

  lemma DeadLetterCoherent(db: Db, now: Time, max: int)
    requires Coherent(db)
    ensures Coherent(DeadLetterExpired(db, now, max))
  {
    var (rows, ids) := (DeadLetterRows(db.dispatches, now, max), ExpiredEvents(db.dispatches, now, max));
    forall e | e in ids && e in db.events ensures HasActive(db.dispatches, e) {
      var d :| d in db.dispatches && OutOfAttempts(db.dispatches[d], now, max) && db.dispatches[d].event == e;
    }
    forall e | e in db.events && e !in ids ensures HasActive(rows, e) <==> HasActive(db.dispatches, e) {
      forall d | d in db.dispatches && db.dispatches[d].event == e ensures rows[d] == db.dispatches[d] {
        assert !OutOfAttempts(db.dispatches[d], now, max);
      }
    }
    InPlaceCoherent(db, rows, ids);
  }

  lemma SameActivity(m: Rows, n: Rows, e: EventId)
    requires SameSlots(m, n) && forall d | d in m :: Active(m[d].status) <==> Active(n[d].status)
    ensures HasActive(n, e) <==> HasActive(m, e)
  {
  }

  lemma ClaimCoherent(db: Db, picked: set<DispatchId>, worker: string, claim: string, now: Time, duration: int,
        max: int)
    requires Coherent(db) && picked <= ClaimableIds(DeadLetterExpired(db, now, max), now, max)
    ensures Coherent(Claim(db, picked, worker, claim, now, duration, max))
  {
    DeadLetterCoherent(db, now, max);
    var m := DeadLetterExpired(db, now, max);
    var n := ClaimRows(m, picked, worker, claim, now, duration);
    SchemaFrame(m, n);
    forall e ensures HasActive(n.dispatches, e) <==> HasActive(m.dispatches, e) {
      SameActivity(m.dispatches, n.dispatches, e);
    }
  }

  lemma CompletedCoherent(db: Db, d: DispatchId, row: Dispatch)
    requires Coherent(db) && d in db.dispatches && Active(db.dispatches[d].status) && SameSlot(db.dispatches[d], row)
    ensures Coherent(SyncEvents(db.(dispatches := db.dispatches[d := row]), {row.event}))
  {
    var rows := db.dispatches[d := row];
    forall e | e in db.events && e != row.event ensures HasActive(rows, e) <==> HasActive(db.dispatches, e) {
      forall c | c in rows && rows[c].event == e ensures rows[c] == db.dispatches[c] {}
      forall c | c in rows && db.dispatches[c].event == e ensures rows[c] == db.dispatches[c] {}
    }
    InPlaceCoherent(db, rows, {row.event});
  }

  lemma NotedCoherent(db: Db, d: DispatchId, now: Time)
    requires Coherent(db) && d in db.dispatches
    ensures Coherent(db.(dispatches := db.dispatches[d := db.dispatches[d].(updatedAt := now)]))
  {
    var n := db.(dispatches := db.dispatches[d := db.dispatches[d].(updatedAt := now)]);
    SchemaFrame(db, n);
    forall e ensures HasActive(n.dispatches, e) <==> HasActive(db.dispatches, e) {
      SameActivity(db.dispatches, n.dispatches, e);
    }
  }

  lemma RecordCoherent(db: Db, d: DispatchId, worker: string, claim: string, status: DispatchStatus, now: Time,
        p: Policy, keyCurrent: bool)
    requires Coherent(db)
    ensures Coherent(Record(db, d, worker, claim, status, now, p, keyCurrent).0)
  {
    var (n, res) := Record(db, d, worker, claim, status, now, p, keyCurrent);
    if res.Recorded? {
      CompletedCoherent(db, d, CompletedRow(db.dispatches[d], status, now, p));
    } else if res.LeaseGone? {
      NotedCoherent(db, d, now);
    }
  }

  lemma PruneCoherent(db: Db, ids: set<EventId>, cutoff: Time)
    requires Coherent(db) && ids <= PrunableIds(db, cutoff)
    ensures Coherent(DeleteEvents(db, ids))
  {
    var n := DeleteEvents(db, ids);
    DeleteSchema(db, ids);
    forall e | e in n.events ensures HasActive(n.dispatches, e) <==> HasActive(db.dispatches, e) {
      forall d | d in db.dispatches && db.dispatches[d].event == e ensures d in n.dispatches
        && n.dispatches[d] == db.dispatches[d] {}
    }
  }

  // ---- Runs ----

  /** A step keeps the tables coherent exactly when it runs no unsafe turn. */
  lemma StepCoherentExactly(db: Db, s: Step)
    requires Coherent(db) && Enabled(db, s)
    ensures Coherent(Apply(db, s)) <==> SafeStep(db, s)
  {
    match s
    case DoEnqueue(r, cooldown, secret, keyCurrent) => EnqueueCoherent(db, r, cooldown, secret, keyCurrent);
    case DoClaim(worker, claim, now, duration, max, picked) =>
      ClaimCoherent(db, picked, worker, claim, now, duration, max);
    case DoRecord(d, worker, claim, status, now, p, keyCurrent) =>
      RecordCoherent(db, d, worker, claim, status, now, p, keyCurrent);
    case DoPrune(ids, cutoff) => PruneCoherent(db, ids, cutoff);
    case DoReset(now) => ResetLeavesNothingPending(db, now);
    case DoRename(trace, secret, now) => ReplayCoherentExactly(db, trace, secret, now);
  }

  ghost predicate Run(dbs: seq<Db>, steps: Steps) {
    && |dbs| == |steps| + 1 && Coherent(dbs[0])
    && forall i | 0 <= i < |steps| :: Enabled(dbs[i], steps[i]) && dbs[i + 1] == Apply(dbs[i], steps[i])
  }

  ghost predicate SafeUpTo(dbs: seq<Db>, steps: Steps, n: nat)
    requires n <= |steps| && |dbs| == |steps| + 1
  {
    forall i | 0 <= i < n :: SafeStep(dbs[i], steps[i])
  }

  ghost predicate CoherentUpTo(dbs: seq<Db>, n: nat)
    requires n < |dbs|
  {
    forall i | 0 <= i <= n :: Coherent(dbs[i])
  }

  /** Over every run that mixes all these transactions, from coherent tables such as empty or repaired
      ones: events are pending exactly while they have undelivered work and pending hashes are unique in
      every state, if and only if no rename on the way ran an unsafe turn. */
  lemma {:induction false} CoherentRunsExactly(dbs: seq<Db>, steps: Steps, n: nat)
    requires Run(dbs, steps) && n <= |steps|
    ensures CoherentUpTo(dbs, n) <==> SafeUpTo(dbs, steps, n)
  {
    if n > 0 {
      CoherentRunsExactly(dbs, steps, n - 1);
      assert CoherentUpTo(dbs, n) <==> CoherentUpTo(dbs, n - 1) && Coherent(dbs[n]);
      assert SafeUpTo(dbs, steps, n) <==> SafeUpTo(dbs, steps, n - 1) && SafeStep(dbs[n - 1], steps[n - 1]);
      if CoherentUpTo(dbs, n - 1) { StepCoherentExactly(dbs[n - 1], steps[n - 1]); }
    }
  }
}
