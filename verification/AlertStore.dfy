/** The store's alert methods, updating the two tables in place. Each method's new tables are the
    ones the transaction specification gives, and each keeps the table invariant. */
module AlertStore {
  import opened AlertRows
  import opened Least
  import opened OutboxLaws
  import opened OutboxSpec
  import opened OutboxSafety
  import RetryPolicy

  lemma {:induction false} TextLessIrreflexive(a: string)
    ensures !TextLess(a, a)
  {
    if a != [] { TextLessIrreflexive(a[1..]); }
  }

  lemma {:induction false} TextLessTransitive(a: string, b: string, c: string)
    requires TextLess(a, b) && TextLess(b, c)
    ensures TextLess(a, c)
  {
    if a != [] && a[0] == b[0] && b[0] == c[0] { TextLessTransitive(a[1..], b[1..], c[1..]); }
  }

  lemma BeforeTransitive(db: Db, b: DispatchId, c: DispatchId, d: DispatchId)
    requires forall x | x in {b, c, d} :: x in db.dispatches && db.dispatches[x].event in db.events
    requires Before(db, b, c) && Before(db, c, d)
    ensures Before(db, b, d)
  {
    if TextLess(db.dispatches[b].sink, db.dispatches[c].sink)
      && TextLess(db.dispatches[c].sink, db.dispatches[d].sink) {
      TextLessTransitive(db.dispatches[b].sink, db.dispatches[c].sink, db.dispatches[d].sink);
    }
  }

  /** A non-empty set of joined dispatch rows has a first one in claim order. */
  lemma {:induction false} FirstExists(db: Db, rows: set<DispatchId>) returns (first: DispatchId)
    requires rows != {}
    requires forall d | d in rows :: d in db.dispatches && db.dispatches[d].event in db.events
    ensures first in rows && forall d | d in rows :: !Before(db, d, first)
  {
    var x :| x in rows;
    if rows == {x} {
      TextLessIrreflexive(db.dispatches[x].sink);
      first := x;
    } else {
      first := FirstExists(db, rows - {x});
      if Before(db, x, first) {
        forall d | d in rows ensures !Before(db, d, x) {
          TextLessIrreflexive(db.dispatches[x].sink);
          if d != x && Before(db, d, x) {
            BeforeTransitive(db, d, x, first);
          }
        }
        first := x;
      }
    }
  }

  /** The ordered, limited selection always exists. */
  lemma {:induction false} ChoiceExists(db: Db, now: Time, max: int, limit: nat) returns (picked: set<DispatchId>)
    ensures ClaimChoice(db, picked, now, max, limit)
  {
    if limit == 0 {
      picked := {};
    } else {
      picked := ChoiceExists(db, now, max, limit - 1);
      var rest := ClaimableIds(db, now, max) - picked;
      if |picked| == limit - 1 && rest != {} {
        var first := FirstExists(db, rest);
        picked := picked + {first};
      } else if |picked| == limit - 1 {
        assert picked == ClaimableIds(db, now, max);
      }
    }
  }

  /** The n smallest members of s: ORDER BY id LIMIT n. */
  predicate Lowest(s: set<EventId>, n: nat, low: set<EventId>) {
    && low <= s && |low| <= n && (|low| < n ==> low == s)
    && forall x: EventId, y: EventId | x in low && y in s - low :: x < y
  }

  lemma {:induction false} LowestExists(s: set<EventId>, n: nat) returns (low: set<EventId>)
    ensures Lowest(s, n, low)
  {
    if n == 0 {
      low := {};
    } else {
      var l := LowestExists(s, n - 1);
      low := l;
      if |l| == n - 1 && s - l != {} {
        var least := LeastExists(s - l);
        low := l + {least};
        forall x: EventId, y: EventId | x in low && y in s - low ensures x < y {
          assert y in s - l;
        }
      } else if |l| == n - 1 {
        assert forall y: EventId | y in s :: y in l || y in s - l;
      }
    }
  }

  /** n is db after a claim transaction that selected picked. */
  ghost predicate ClaimOf(db: Db, n: Db, picked: set<DispatchId>, worker: string, claim: string, now: Time,
        duration: int, max: int, limit: nat) {
    && ClaimChoice(DeadLetterExpired(db, now, max), picked, now, max, limit)
    && n == Claim(db, picked, worker, claim, now, duration, max)
  }

  lemma BatchProgress(all: set<EventId>, gone: set<EventId>, ids: set<EventId>, batch: nat)
    requires gone <= all && Lowest(all - gone, batch, ids)
    ensures gone + ids <= all && |gone + ids| == |gone| + |ids|
    ensures |ids| < batch ==> gone + ids == all
    ensures |ids| >= batch && batch > 0 ==> all - (gone + ids) < all - gone
  {
    if |ids| >= batch && batch > 0 {
      var x :| x in ids;
      assert x in all - gone && x !in all - (gone + ids);
    }
  }

  lemma DeleteNothing(db: Db)
    ensures DeleteEvents(db, {}) == db
  {
  }

  lemma DeleteMore(db: Db, gone: set<EventId>, ids: set<EventId>, cutoff: Time)
    ensures DeleteEvents(DeleteEvents(db, gone), ids) == DeleteEvents(db, gone + ids)
    ensures PrunableIds(DeleteEvents(db, gone), cutoff) == PrunableIds(db, cutoff) - gone
  {
  }

  class AlertStore {
    var events: Events
    var dispatches: Rows
    var lastEvent: EventId
    var lastDispatch: DispatchId
    const secret: nat
    const policy: Policy

    ghost function Tables(): Db
      reads this
    {
      Db(events, dispatches, lastEvent, lastDispatch)
    }

    ghost predicate Valid()
      reads this
    {
      Inv(Tables(), policy.maxAttempts)
    }

    constructor (secret: nat, policy: RetryPolicy.Policy)
      ensures Valid() && Tables() == EMPTY_DB
      ensures this.secret == secret && this.policy == RetryPolicy.Normalized(policy)
    {
      this.secret, this.policy := secret, RetryPolicy.Normalized(policy);
      events, dispatches, lastEvent, lastDispatch := map[], map[], 0, 0;
    }

    method EnsurePendingDispatches(e: EventId, sinks: seq<string>, at: Time)
      modifies this`dispatches, this`lastDispatch
      ensures Tables() == AddDispatches(old(Tables()), e, sinks, at)
    {
      for i := 0 to |sinks|
        invariant Tables() == AddDispatches(old(Tables()), e, sinks[..i], at)
      {
        assert sinks[..i + 1][..i] == sinks[..i];
        if !HasSink(dispatches, e, sinks[i]) {
          lastDispatch := lastDispatch + 1;
          dispatches := dispatches[lastDispatch := FreshDispatch(e, sinks[i], at)];
        }
      }
      assert sinks[..|sinks|] == sinks;
    }

    /** INSERT of a new pending event with its dispatches. */
    method InsertNew(r: Request, h: Hash)
      modifies this`events, this`lastEvent, this`dispatches, this`lastDispatch
      ensures lastEvent == old(lastEvent) + 1
      ensures Tables() == AddDispatches(InsertEvent(old(Tables()), r, h), lastEvent, r.sinks, r.createdAt)
    {
      lastEvent := lastEvent + 1;
      events := events[lastEvent := Event(r.subject, r.key, h, r.createdAt, EventPending)];
      EnsurePendingDispatches(lastEvent, r.sinks, r.createdAt);
    }

    /** The body of enqueue, for a valid request under the current key. */
    method Store(r: Request, cooldown: int, h: Hash) returns (result: EnqueueResult)
      requires UniquePending(events) && ValidRequest(r) && h == Hmac(secret, r.key)
      modifies this`events, this`lastEvent, this`dispatches, this`lastDispatch
      ensures (Tables(), result) == Enqueue(old(Tables()), r, cooldown, secret, true)
    {
      var db := Db(events, dispatches, lastEvent, lastDispatch);
      if e :| e in events && PendingWith(db, h, e) && HasActive(dispatches, e) {
        forall f | PendingWith(db, h, f) ensures f == e {
          assert Rivals(db.events[e], db.events[f]);
        }
        EnsurePendingDispatches(e, r.sinks, r.createdAt);
        return Existing(e);
      }
      if InCooldown(db, r, h, cooldown) { return Suppressed; }
      if exists e | e in events :: PendingWith(db, h, e) { return Conflict; }
      InsertNew(r, h);
      return Inserted(lastEvent);
    }

    method EnqueueEvent(r: Request, cooldown: int, keyCurrent: bool) returns (result: EnqueueResult)
      requires Valid()
      modifies this
      ensures Valid()
      ensures (Tables(), result) == Enqueue(old(Tables()), r, cooldown, secret, keyCurrent)
      ensures Answered(old(Tables()), r, cooldown, secret, keyCurrent, result) && result != Conflict
      ensures if result.Inserted? || result.Existing? then Stored(old(Tables()), Tables(), r, secret, result.id)
        else Tables() == old(Tables())
    {
      EnqueueKeeps(Tables(), r, cooldown, secret, keyCurrent, policy.maxAttempts);
      EnqueueAnswers(Tables(), r, cooldown, secret, keyCurrent);
      EnqueueStores(Tables(), r, cooldown, secret, keyCurrent);
      if !ValidRequest(r) { return Invalid; }
      if !keyCurrent { return Locked; }
      result := Store(r, cooldown, Hmac(secret, r.key));
    }

    method SyncEventStatus(e: EventId)
      requires e in events
      modifies this`events
      ensures Tables() == SyncEvents(old(Tables()), {e})
    {
      events := events[e := events[e].(status := DerivedStatus(dispatches, e))];
    }

    /** Dead-letters every expired lease that is out of attempts and returns the events touched. */
    method DeadLetterExpiredDispatches(now: Time) returns (ids: set<EventId>)
      modifies this`dispatches
      ensures ids == ExpiredEvents(old(dispatches), now, policy.maxAttempts)
      ensures dispatches == DeadLetterRows(old(dispatches), now, policy.maxAttempts)
    {
      ids := ExpiredEvents(dispatches, now, policy.maxAttempts);
      dispatches := DeadLetterRows(dispatches, now, policy.maxAttempts);
    }

    method SyncEach(ids: set<EventId>)
      requires ids <= events.Keys
      modifies this`events
      ensures Tables() == SyncEvents(old(Tables()), ids)
    {
      ghost var was := Tables();
      var rest := ids;
      while rest != {}
        invariant rest <= ids
        invariant Tables() == SyncEvents(was, ids - rest)
        decreases rest
      {
        var e :| e in rest;
        SyncEventStatus(e);
        rest := rest - {e};
        assert events == SyncEvents(was, ids - rest).events;
      }
      assert ids - rest == ids;
    }

    /** Dead-letters expired dispatches and brings their events' statuses up to date. */
    method Expire(now: Time)
      requires Schema(Tables())
      modifies this`events, this`dispatches
      ensures Tables() == DeadLetterExpired(old(Tables()), now, policy.maxAttempts)
    {
      var ids := DeadLetterExpiredDispatches(now);
      SyncEach(ids);
    }

    /** The ordered, limited claim query with its update. */
    method TakeDue(worker: string, claim: string, now: Time, duration: int, limit: nat)
        returns (picked: set<DispatchId>)
      modifies this`dispatches
      ensures ClaimChoice(old(Tables()), picked, now, policy.maxAttempts, limit)
      ensures Tables() == ClaimRows(old(Tables()), picked, worker, claim, now, duration)
    {
      ghost var some := ChoiceExists(Tables(), now, policy.maxAttempts, limit);
      var due := ClaimableIds(Db(events, dispatches, lastEvent, lastDispatch), now, policy.maxAttempts);
      picked :| picked <= due
        && ClaimChoice(Db(events, dispatches, lastEvent, lastDispatch), picked, now, policy.maxAttempts, limit);
      dispatches := map d | d in dispatches ::
        if d in picked then ClaimRow(dispatches[d], worker, claim, now, duration) else dispatches[d];
    }

    method ClaimTx(worker: string, claim: string, now: Time, duration: int, limit: nat)
        returns (picked: set<DispatchId>)
      requires Valid()
      modifies this
      ensures Valid()
      ensures ClaimOf(old(Tables()), Tables(), picked, worker, claim, now, duration, policy.maxAttempts, limit)
    {
      ghost var was := Tables();
      Expire(now);
      ghost var mid := Tables();
      assert mid == DeadLetterExpired(was, now, policy.maxAttempts);
      picked := TakeDue(worker, claim, now, duration, limit);
      ghost var end := Tables();
      assert end == ClaimRows(mid, picked, worker, claim, now, duration);
      ClaimKeeps(was, picked, worker, claim, now, duration, policy.maxAttempts);
    }

    /** Claims due dispatches for a worker; an unusable request or a stale key claims nothing. */
    method ClaimPending(worker: string, claim: string, now: Time, duration: int, limit: int, keyCurrent: bool)
      returns (ok: bool, picked: set<DispatchId>)
      requires Valid()
      modifies this
      ensures Valid()
      ensures ok == (worker != "" && duration > 0 && limit > 0 && keyCurrent)
      ensures !ok ==> Tables() == old(Tables())
      ensures ok ==> ClaimOf(old(Tables()), Tables(), picked, worker, claim, now, duration, policy.maxAttempts, limit)
      ensures ok ==> InOrder(old(Tables()), picked, now, policy.maxAttempts, limit)
      ensures ok ==> Handed(old(dispatches), dispatches, picked, worker, claim, now, duration, policy.maxAttempts)
    {
      ok, picked := worker != "" && duration > 0 && limit > 0 && keyCurrent, {};
      if !ok { return; }
      picked := ClaimTx(worker, claim, now, duration, limit);
      ghost var was := old(Tables());
      ClaimTakesDue(was, picked, now, policy.maxAttempts, limit);
      ClaimHandsOut(was, picked, worker, claim, now, duration, policy.maxAttempts);
    }

    /** The row a live completion writes, with the retry delay from the doubling loop. */
    method Completed(row: Dispatch, status: DispatchStatus, now: Time) returns (done: Dispatch)
      ensures done == CompletedRow(row, status, now, policy)
    {
      var next := row.attempts + 1;
      var outcome := ResultStatus(status, next, policy.maxAttempts);
      var due := 0;
      if outcome.Pending? {
        var delay, _ := RetryPolicy.Backoff(policy, next);
        due := now + delay;
      }
      done := row.(attempts := next, status := outcome, lease := 0, nextAttempt := due,
                   deliveredAt := if outcome.Delivered? then now else 0, updatedAt := now);
    }

    /** Completes or requeues a claimed dispatch. */
    method RecordResult(d: DispatchId, worker: string, claim: string, status: DispatchStatus, now: Time,
          keyCurrent: bool)
      returns (result: RecordResult)
      requires Valid()
      modifies this
      ensures Valid()
      ensures (Tables(), result) == Record(old(Tables()), d, worker, claim, status, now, policy, keyCurrent)
      ensures RecordAnswered(old(Tables()), d, worker, claim, status, now, policy, keyCurrent, result)
    {
      RecordAnswers(Tables(), d, worker, claim, status, now, policy, keyCurrent);
      RecordKeeps(Tables(), d, worker, claim, status, now, policy, keyCurrent);
      if d == 0 || worker == "" || claim == "" || !(status.Pending? || Terminal(status)) { return BadRequest; }
      if !keyCurrent { return KeyLocked; }
      if d !in dispatches || dispatches[d].event !in events { return NotFound; }
      var row := dispatches[d];
      if Terminal(row.status) {
        if !Holds(row, worker, claim) { return ClaimNotHeld; }
        if ResultStatus(status, row.attempts, policy.maxAttempts) != row.status { return TerminalConflict; }
        return Replayed(row);
      }
      if row.status.Pending? && Holds(row, worker, claim) && status.Pending? { return Replayed(row); }
      if !row.status.InFlight? || !Holds(row, worker, claim) { return ClaimNotHeld; }
      var done := Completed(row, status, now);
      if row.lease <= now {
        dispatches := dispatches[d := row.(updatedAt := now)];
        return LeaseGone;
      }
      dispatches := dispatches[d := done];
      SyncEventStatus(row.event);
      return Recorded(done);
    }

    /** One bounded delete statement, lowest ids first. */
    method DeleteBatch(cutoff: Time, batch: nat) returns (ids: set<EventId>)
      modifies this`events, this`dispatches
      ensures Lowest(PrunableIds(old(Tables()), cutoff), batch, ids)
      ensures Tables() == DeleteEvents(old(Tables()), ids)
    {
      var left := PrunableIds(Db(events, dispatches, lastEvent, lastDispatch), cutoff);
      ghost var some := LowestExists(left, batch);
      ids :| ids <= left && Lowest(left, batch, ids);
      events := map e | e in events && e !in ids :: events[e];
      dispatches := map d | d in dispatches && dispatches[d].event !in ids :: dispatches[d];
    }

    method PruneBefore(cutoff: Time, batch: nat) returns (total: nat)
      requires Valid() && batch > 0
      modifies this`events, this`dispatches
      ensures Valid()
      ensures Tables() == DeleteEvents(old(Tables()), PrunableIds(old(Tables()), cutoff))
      ensures Pruned(old(Tables()), Tables(), cutoff) && total == |old(events).Keys - events.Keys|
    {
      ghost var was := Tables();
      ghost var all := PrunableIds(was, cutoff);
      ghost var gone: set<EventId> := {};
      DeleteNothing(was);
      total := 0;
      while true
        invariant gone <= all && total == |gone|
        invariant Tables() == DeleteEvents(was, gone)
        decreases all - gone
      {
        DeleteMore(was, gone, {}, cutoff);
        var ids := DeleteBatch(cutoff, batch);
        DeleteMore(was, gone, ids, cutoff);
        BatchProgress(all, gone, ids, batch);
        total, gone := total + |ids|, gone + ids;
        if |ids| < batch { break; }
      }
      PruneKeeps(was, all, cutoff, policy.maxAttempts);
      PrunedExactly(was, Tables(), cutoff);
    }

    /** Deletes old terminal events in bounded batches; the batches together delete exactly the
        terminal events older than the cutoff and their dispatches, and count them. */
    method PruneTerminal(horizon: int, batchSize: int, now: Time) returns (total: nat)
      requires Valid()
      modifies this`events, this`dispatches
      ensures Valid()
      ensures horizon <= 0 ==> total == 0 && Tables() == old(Tables())
      ensures horizon > 0 ==> Pruned(old(Tables()), Tables(), now - horizon)
      ensures horizon > 0 ==> total == |old(events).Keys - events.Keys|
    {
      if horizon <= 0 { return 0; }
      var batch := if batchSize <= 0 then 500 else batchSize;
      total := PruneBefore(now - horizon, batch);
    }
  }
}
