/** What enqueue, claim, record and prune promise, in terms of the columns alone: when each answer is
    given, which rows change, and to what. */
module OutboxLaws {
  import opened AlertRows
  import opened OutboxSafety
  import opened OutboxSpec
  import RetryPolicy

  // ---------------------------------------------------------- event status

  /** The outcomes of an event's dispatches. */
  function Outcomes(rows: Rows, e: EventId): set<DispatchStatus> {
    set d | d in rows && rows[d].event == e :: rows[d].status
  }

  /** An event waits while any sink does. Then it is delivered if every sink was served, skipped or reset
      and not all were reset, partial if some sink was served and some was given up, reset if its work was
      only ever reset, and failed otherwise. */
  lemma StatusOfOutcomes(rows: Rows, e: EventId)
    ensures var (status, all) := (DerivedStatus(rows, e), Outcomes(rows, e));
      && (status == EventPending <==> Pending in all || InFlight in all)
      && (status == EventDelivered <==> all <= {Delivered, Skipped, Reset} && !(all <= {Reset}))
      && (status == EventPartial <==>
        all <= {Delivered, Skipped, DeadLettered, Reset} && DeadLettered in all && (Delivered in all || Skipped in all))
      && (status == EventReset <==> all != {} && all <= {Reset})
      && (status == EventFailed <==> all == {} || (DeadLettered in all && all <= {DeadLettered, Reset}))
  {
    var all := Outcomes(rows, e);
    assert HasActive(rows, e) <==> Pending in all || InFlight in all;
    assert HasClosed(rows, e) <==> Delivered in all || Skipped in all;
    assert forall s :: HasStatus(rows, e, s) <==> s in all;
  }

  // ---------------------------------------------------------------- enqueue

  /** A required field is missing. */
  predicate Incomplete(r: Request) {
    || r.subject.kind == "" || r.subject.newState == "" || r.key == ""
    || (r.subject.service == "" && r.subject.repository == "" && r.subject.agent == "")
    || r.sinks == [] || (exists i | 0 <= i < |r.sinks| :: r.sinks[i] == "")
  }

  /** Nothing is waiting or in flight for e. */
  predicate Idle(db: Db, e: EventId) {
    forall d | d in db.dispatches && db.dispatches[d].event == e ::
      db.dispatches[d].status != Pending && db.dispatches[d].status != InFlight
  }

  /** d is the last word on an earlier occurrence of the request: its event has the request's hash - or, for
      a producer with a cooldown key, its subject - and was delivered at least in part, with nothing left. */
  predicate ClosedEarlier(db: Db, r: Request, secret: nat, d: DispatchId) {
    && d in db.dispatches && db.dispatches[d].event in db.events
    && var e := db.events[db.dispatches[d].event];
    && (if r.cooldownKey != "" then e.subject == r.subject else e.hash == Hmac(secret, r.key))
    && (e.status == EventDelivered || e.status == EventPartial)
    && Idle(db, db.dispatches[d].event)
  }

  /** Some earlier occurrence closed at a time that is not yet cooldown ago. */
  predicate CoolingDown(db: Db, r: Request, cooldown: int, secret: nat) {
    exists d | d in db.dispatches :: ClosedEarlier(db, r, secret, d) &&
      var row := db.dispatches[d];
      if row.deliveredAt != 0 then 0 < row.deliveredAt && r.createdAt < row.deliveredAt + cooldown
      else 0 < row.updatedAt && r.createdAt < row.updatedAt + cooldown
  }

  lemma CooldownMeans(db: Db, r: Request, cooldown: int, secret: nat)
    ensures InCooldown(db, r, Hmac(secret, r.key), cooldown) <==> cooldown > 0 && CoolingDown(db, r, cooldown, secret)
  {
    forall d | d in db.dispatches
      ensures Idle(db, db.dispatches[d].event) <==> !HasActive(db.dispatches, db.dispatches[d].event)
    {
    }
  }

  /** A pending event of the request's hash. */
  predicate Waiting(db: Db, r: Request, secret: nat, e: EventId) {
    e in db.events && db.events[e].status == EventPending && db.events[e].hash == Hmac(secret, r.key)
  }

  /** When enqueue gives which answer. */
  ghost predicate Answered(db: Db, r: Request, cooldown: int, secret: nat, keyCurrent: bool, answer: EnqueueResult) {
    && (answer == Invalid <==> Incomplete(r))
    && (answer == Locked <==> !Incomplete(r) && !keyCurrent)
    && (forall e :: answer == Existing(e) <==> !Incomplete(r) && keyCurrent && Waiting(db, r, secret, e))
    && var unseen := !Incomplete(r) && keyCurrent && forall e :: !Waiting(db, r, secret, e);
    && (answer == Suppressed <==> unseen && cooldown > 0 && CoolingDown(db, r, cooldown, secret))
    && (answer == Inserted(db.lastEvent + 1) <==> unseen && (cooldown <= 0 || !CoolingDown(db, r, cooldown, secret)))
  }

  lemma EnqueueAnswers(db: Db, r: Request, cooldown: int, secret: nat, keyCurrent: bool)
    requires StatusDerived(db) && UniquePending(db.events)
    ensures Answered(db, r, cooldown, secret, keyCurrent, Enqueue(db, r, cooldown, secret, keyCurrent).1)
  {
    var h := Hmac(secret, r.key);
    CooldownMeans(db, r, cooldown, secret);
    PendingExactlyWhileActive(db);
    assert ValidRequest(r) <==> !Incomplete(r);
    forall e, f | PendingWith(db, h, e) && PendingWith(db, h, f) ensures e == f {
      assert Rivals(db.events[e], db.events[f]);
    }
    forall e ensures Waiting(db, r, secret, e) <==> PendingWith(db, h, e) && HasActive(db.dispatches, e) {}
  }

  ghost predicate HasRow(rows: Rows, e: EventId, sink: string) {
    exists d | d in rows :: rows[d].event == e && rows[d].sink == sink
  }

  /** A fresh row, due at once, was added for each of the sinks that had none, and nothing else changed. */
  ghost predicate AddedRows(m: Rows, n: Rows, e: EventId, sinks: seq<string>, at: Time) {
    && (forall d | d in m :: d in n && n[d] == m[d])
    && (forall d | d in n && d !in m :: n[d].sink in sinks && !HasRow(m, e, n[d].sink))
    && (forall d | d in n && d !in m :: n[d] == Dispatch(e, n[d].sink, Pending, "", "", 0, 0, 0, 0, at))
    && (forall s | s in sinks :: HasRow(n, e, s))
  }

  /** A stored request: its event, if new, and its rows. */
  ghost predicate Stored(db: Db, n: Db, r: Request, secret: nat, e: EventId) {
    && AddedRows(db.dispatches, n.dispatches, e, r.sinks, r.createdAt)
    && n.events == if e in db.events then db.events
      else db.events[e := Event(r.subject, r.key, Hmac(secret, r.key), r.createdAt, EventPending)]
  }

  lemma OneRowMore(rows: Rows, m: Db, e: EventId, init: seq<string>, sink: string, at: Time)
    requires AddedRows(rows, m.dispatches, e, init, at)
    requires Extended(m, AddDispatch(m, e, sink, at), e) && HasSink(AddDispatch(m, e, sink, at).dispatches, e, sink)
    ensures AddedRows(rows, AddDispatch(m, e, sink, at).dispatches, e, init + [sink], at)
  {
    var n := AddDispatch(m, e, sink, at).dispatches;
    forall s | s in init + [sink] ensures HasRow(n, e, s) {
      if s in init {
        var d :| d in m.dispatches && m.dispatches[d].event == e && m.dispatches[d].sink == s;
        assert n[d] == m.dispatches[d];
      }
    }
  }

  lemma {:induction false} AddsRows(db: Db, e: EventId, sinks: seq<string>, at: Time)
    requires Schema(db) && e in db.events
    ensures AddedRows(db.dispatches, AddDispatches(db, e, sinks, at).dispatches, e, sinks, at)
  {
    if sinks != [] {
      var (init, sink) := (sinks[..|sinks| - 1], sinks[|sinks| - 1]);
      var m := AddDispatches(db, e, init, at);
      AddsRows(db, e, init, at);
      AddDispatchesExtends(db, e, init, at);
      AddDispatchExtends(m, e, sink, at);
      OneRowMore(db.dispatches, m, e, init, sink, at);
      assert sinks == init + [sink];
    }
  }

  /** What the answers leave: a stored request is Stored under the given id, anything else changes nothing. */
  lemma EnqueueStores(db: Db, r: Request, cooldown: int, secret: nat, keyCurrent: bool)
    requires Schema(db)
    ensures var (n, answer) := Enqueue(db, r, cooldown, secret, keyCurrent);
      if answer.Inserted? || answer.Existing? then Stored(db, n, r, secret, answer.id) else n == db
  {
    var (n, answer) := Enqueue(db, r, cooldown, secret, keyCurrent);
    if answer.Existing? {
      AddsRows(db, answer.id, r.sinks, r.createdAt);
      AddDispatchesExtends(db, answer.id, r.sinks, r.createdAt);
    } else if answer.Inserted? {
      var m := InsertEvent(db, r, Hmac(secret, r.key));
      AddsRows(m, answer.id, r.sinks, r.createdAt);
      AddDispatchesExtends(m, answer.id, r.sinks, r.createdAt);
    }
  }

  // ------------------------------------------------------------------ claim

  /** The lexicographic order of texts. */
  lemma {:induction false} TextLessExactly(a: string, b: string)
    ensures TextLess(a, b) <==>
      exists k :: 0 <= k <= |a| && k < |b| && a[..k] == b[..k] && (k == |a| || a[k] < b[k])
  {
    if a != [] && b != [] && a[0] == b[0] {
      TextLessExactly(a[1..], b[1..]);
      if TextLess(a, b) {
        var k :| 0 <= k <= |a[1..]| && k < |b[1..]| && a[1..][..k] == b[1..][..k]
          && (k == |a[1..]| || a[1..][k] < b[1..][k]);
        assert a[..k + 1] == [a[0]] + a[1..][..k] == b[..k + 1];
      }
      if k :| 0 <= k <= |a| && k < |b| && a[..k] == b[..k] && (k == |a| || a[k] < b[k]) {
        assert a[..k][1..] == a[1..][..k - 1] && b[..k][1..] == b[1..][..k - 1];
      }
    } else if a == [] && b != [] {
      assert a[..0] == b[..0];
    } else if a != [] && b != [] {
      if a[0] < b[0] { assert a[..0] == b[..0]; }
      if k :| 0 <= k <= |a| && k < |b| && a[..k] == b[..k] && (k == |a| || a[k] < b[k]) {
        assert forall i | 0 <= i < k :: a[..k][i] == a[i] && b[..k][i] == b[i];
      }
    }
  }

  /** Waiting and due, or abandoned with attempts left. */
  predicate Due(d: Dispatch, now: Time, max: int) {
    || (d.status == Pending && d.nextAttempt <= now)
    || (d.status == InFlight && d.lease <= now && d.attempts + 1 < max)
  }

  predicate Spent(d: Dispatch, now: Time, max: int) {
    d.status == InFlight && d.lease <= now && d.attempts + 1 >= max
  }

  /** c is not served after d: older event first, then the lower event id, then the sinks by name. */
  predicate InTurn(db: Db, c: DispatchId, d: DispatchId)
    requires c in db.dispatches && d in db.dispatches
    requires db.dispatches[c].event in db.events && db.dispatches[d].event in db.events
  {
    var (x, y) := (db.dispatches[c], db.dispatches[d]);
    var (s, t) := (db.events[x.event].createdAt, db.events[y.event].createdAt);
    s <= t && (s == t ==> x.event <= y.event) && (s == t && x.event == y.event ==> !TextLess(y.sink, x.sink))
  }

  function GivenUp(d: Dispatch, now: Time): Dispatch {
    Dispatch(d.event, d.sink, DeadLettered, "", "", d.attempts + 1, 0, 0, d.deliveredAt, now)
  }

  function LeasedTo(d: Dispatch, worker: string, claim: string, now: Time, until: Time): Dispatch {
    var failed := if d.status == InFlight then 1 else 0;
    Dispatch(d.event, d.sink, InFlight, worker, claim, d.attempts + failed, until, 0, d.deliveredAt, now)
  }

  /** What a claim of picked does to the rows: they are leased to the worker, abandoned rows out of attempts
      are dead-lettered, and rows that are leased, not due or finished stay as they are. */
  ghost predicate Handed(rows: Rows, n: Rows, picked: set<DispatchId>, worker: string, claim: string, now: Time,
        duration: int, max: int) {
    && n.Keys == rows.Keys && picked <= rows.Keys
    && (forall d | d in picked :: n[d] == LeasedTo(rows[d], worker, claim, now, now + duration))
    && (forall d | d in rows && Spent(rows[d], now, max) :: n[d] == GivenUp(rows[d], now))
    && (forall d | d in rows && d !in picked && !Spent(rows[d], now, max) :: n[d] == rows[d])
  }

  /** picked are due rows, as many as the limit allows, each in its turn. */
  ghost predicate InOrder(db: Db, picked: set<DispatchId>, now: Time, max: int, limit: nat) {
    && (forall d | d in picked :: d in db.dispatches && Due(db.dispatches[d], now, max))
    && (forall d | d in db.dispatches :: db.dispatches[d].event in db.events)
    && |picked| <= limit
    && (|picked| < limit ==> forall d | d in db.dispatches && Due(db.dispatches[d], now, max) :: d in picked)
    && (forall c, d | c in picked && d in db.dispatches && Due(db.dispatches[d], now, max) && d !in picked ::
      InTurn(db, c, d))
  }

  /** After dead-lettering, the rows that may be claimed are the due ones. */
  lemma ClaimableIsDue(db: Db, now: Time, max: int, d: DispatchId)
    requires Schema(db)
    ensures d in ClaimableIds(DeadLetterExpired(db, now, max), now, max) <==>
      d in db.dispatches && Due(db.dispatches[d], now, max)
  {
  }

  lemma ClaimRewrites(db: Db, picked: set<DispatchId>, worker: string, claim: string, now: Time, duration: int,
        max: int, d: DispatchId)
    requires d in db.dispatches && (d in picked ==> Due(db.dispatches[d], now, max))
    ensures var (row, n) := (db.dispatches[d], Claim(db, picked, worker, claim, now, duration, max).dispatches);
      && d in n
      && n[d] == (if d in picked then LeasedTo(row, worker, claim, now, now + duration)
                  else if Spent(row, now, max) then GivenUp(row, now) else row)
  {
  }

  /** The choice the claim query makes after dead-lettering, in terms of the rows before it. */
  lemma ClaimTakesDue(db: Db, picked: set<DispatchId>, now: Time, max: int, limit: nat)
    requires Schema(db) && ClaimChoice(DeadLetterExpired(db, now, max), picked, now, max, limit)
    ensures InOrder(db, picked, now, max, limit)
  {
    var mid := DeadLetterExpired(db, now, max);
    forall d: DispatchId ensures d in ClaimableIds(mid, now, max) <==>
      d in db.dispatches && Due(db.dispatches[d], now, max) {
      ClaimableIsDue(db, now, max, d);
    }
    forall c, d | c in picked && d in db.dispatches && Due(db.dispatches[d], now, max) && d !in picked
      ensures InTurn(db, c, d)
    {
      assert !Before(mid, d, c);
    }
  }

  lemma ClaimHandsOut(db: Db, picked: set<DispatchId>, worker: string, claim: string, now: Time, duration: int,
        max: int)
    requires forall d | d in picked :: d in db.dispatches && Due(db.dispatches[d], now, max)
    ensures var n := Claim(db, picked, worker, claim, now, duration, max);
      Handed(db.dispatches, n.dispatches, picked, worker, claim, now, duration, max)
  {
    forall d | d in db.dispatches
      ensures var (row, n) := (db.dispatches[d], Claim(db, picked, worker, claim, now, duration, max).dispatches);
        n[d] == (if d in picked then LeasedTo(row, worker, claim, now, now + duration)
                 else if Spent(row, now, max) then GivenUp(row, now) else row)
    {
      ClaimRewrites(db, picked, worker, claim, now, duration, max, d);
    }
  }

  // ----------------------------------------------------------------- record

  /** The row of a result that was taken: the reported status, except that a failure on the last
      attempt is final; a retry waits as long as the policy says. */
  predicate TakenAs(a: Dispatch, b: Dispatch, status: DispatchStatus, now: Time, p: Policy) {
    && b.attempts == a.attempts + 1
    && b.status == (if status == Pending && b.attempts >= p.maxAttempts then DeadLettered else status)
    && b.deliveredAt == (if status == Delivered then now else 0)
    && (if b.status == Pending then b.nextAttempt == now + RetryPolicy.BackoffSpec(p, b.attempts)
        else b.nextAttempt == 0)
    && (b.status == Pending ==> now + p.initialInterval <= b.nextAttempt <= now + p.maxInterval)
    && b.event == a.event && b.sink == a.sink && b.worker == a.worker && b.claim == a.claim
    && b.lease == 0 && b.updatedAt == now
  }

  predicate Finished(d: Dispatch) {
    d.status == Delivered || d.status == Skipped || d.status == DeadLettered
  }

  /** The row carries this outcome already: the reported one, or the dead letter a last failure became. */
  predicate SameOutcome(d: Dispatch, status: DispatchStatus, max: int) {
    status == d.status || (status == Pending && d.attempts >= max && d.status == DeadLettered)
  }

  ghost predicate RecordAnswered(db: Db, d: DispatchId, worker: string, claim: string, status: DispatchStatus,
        now: Time, p: Policy, keyCurrent: bool, answer: RecordResult) {
    if d == 0 || worker == "" || claim == "" || status == InFlight || status == Reset then answer == BadRequest
    else if !keyCurrent then answer == KeyLocked
    else if d !in db.dispatches then answer == NotFound
    else
      var row := db.dispatches[d];
      if row.worker != worker || row.claim != claim then answer == ClaimNotHeld
      else if Finished(row) then
        answer == if SameOutcome(row, status, p.maxAttempts) then Replayed(row) else TerminalConflict
      else if row.status == InFlight then
        if row.lease <= now then answer == LeaseGone else answer.Recorded? && TakenAs(row, answer.row, status, now, p)
      else answer == if row.status == Pending && status == Pending then Replayed(row) else ClaimNotHeld
  }

  /** When record gives which answer, and what row a result becomes. */
  lemma RecordAnswers(db: Db, d: DispatchId, worker: string, claim: string, status: DispatchStatus, now: Time,
        p: Policy, keyCurrent: bool)
    requires Schema(db) && AttemptsBounded(db.dispatches, p.maxAttempts)
    ensures RecordAnswered(db, d, worker, claim, status, now, p, keyCurrent,
                           Record(db, d, worker, claim, status, now, p, keyCurrent).1)
  {
    if d in db.dispatches && db.dispatches[d].status.InFlight? {
      RetryPolicy.BackoffMonotone(p, db.dispatches[d].attempts + 1, db.dispatches[d].attempts + 1);
    }
  }

  /** A taken result replaces its row and brings its event's status up to date; a late one only leaves
      its time on the row; everything else stays as it was. */
  lemma RecordChanges(db: Db, d: DispatchId, worker: string, claim: string, status: DispatchStatus, now: Time,
        p: Policy, keyCurrent: bool)
    requires Schema(db)
    ensures var (n, answer) := Record(db, d, worker, claim, status, now, p, keyCurrent);
      match answer
      case Recorded(row) =>
        && d in db.dispatches && n.dispatches == db.dispatches[d := row] && row.event in db.events
        && n.events == db.events[row.event := db.events[row.event].(status := n.events[row.event].status)]
        && n.events[row.event].status == DerivedStatus(n.dispatches, row.event)
      case LeaseGone =>
        d in db.dispatches && n == db.(dispatches := db.dispatches[d := db.dispatches[d].(updatedAt := now)])
      case _ => n == db
  {
  }

  lemma IdleOutcomes(db: Db, e: EventId)
    ensures Idle(db, e) <==> Pending !in Outcomes(db.dispatches, e) && InFlight !in Outcomes(db.dispatches, e)
  {
  }

  /** A taken delivery leaves its row delivered; with nothing left to do its event is delivered or partial. */
  lemma DeliveryCloses(db: Db, d: DispatchId, worker: string, claim: string, now: Time, p: Policy)
    requires Inv(db, p.maxAttempts) && Record(db, d, worker, claim, Delivered, now, p, true).1.Recorded?
    requires Idle(Record(db, d, worker, claim, Delivered, now, p, true).0, db.dispatches[d].event)
    ensures var (n, e) := (Record(db, d, worker, claim, Delivered, now, p, true).0, db.dispatches[d].event);
      && d in n.dispatches && n.dispatches[d].event == e && n.dispatches[d].deliveredAt == now
      && e in n.events && (n.events[e].status == EventDelivered || n.events[e].status == EventPartial)
      && n.events == db.events[e := db.events[e].(status := n.events[e].status)]
  {
    var (n, e) := (Record(db, d, worker, claim, Delivered, now, p, true).0, db.dispatches[d].event);
    RecordAnswers(db, d, worker, claim, Delivered, now, p, true);
    RecordChanges(db, d, worker, claim, Delivered, now, p, true);
    StatusOfOutcomes(n.dispatches, e);
    assert n.dispatches[d].status == Delivered;
    assert Delivered in Outcomes(n.dispatches, e);
    IdleOutcomes(n, e);
  }

  /** Where the only pending event of a hash has just been delivered, its key is suppressed. */
  lemma ClosedSuppresses(db: Db, n: Db, d: DispatchId, e: EventId, r: Request, cooldown: int, secret: nat)
    requires UniquePending(db.events) && e in db.events && db.events[e].status == EventPending
    requires db.events[e].hash == Hmac(secret, r.key) && r.cooldownKey == "" && !Incomplete(r) && cooldown > 0
    requires e in n.events && n.events == db.events[e := db.events[e].(status := n.events[e].status)]
    requires n.events[e].status == EventDelivered || n.events[e].status == EventPartial
    requires d in n.dispatches && n.dispatches[d].event == e && Idle(n, e)
    requires StatusDerived(n) && UniquePending(n.events)
    requires 0 < n.dispatches[d].deliveredAt && r.createdAt < n.dispatches[d].deliveredAt + cooldown
    ensures Enqueue(n, r, cooldown, secret, true) == (n, Suppressed)
  {
    assert ClosedEarlier(n, r, secret, d);
    forall x ensures !Waiting(n, r, secret, x) {
      if x in db.events && x != e { assert Rivals(db.events[x], db.events[e]) ==> x == e; }
    }
    EnqueueAnswers(n, r, cooldown, secret, true);
  }

  /** A delivery that leaves its event nothing to do starts the cooldown: until it is over, another
      request for the same key is answered Suppressed and stores nothing. */
  lemma DeliveryStartsCooldown(db: Db, d: DispatchId, worker: string, claim: string, now: Time, p: Policy,
        r: Request, cooldown: int, secret: nat)
    requires Inv(db, p.maxAttempts) && Record(db, d, worker, claim, Delivered, now, p, true).1.Recorded?
    requires db.events[db.dispatches[d].event].hash == Hmac(secret, r.key) && r.cooldownKey == "" && !Incomplete(r)
    requires Idle(Record(db, d, worker, claim, Delivered, now, p, true).0, db.dispatches[d].event)
    requires now > 0 && r.createdAt < now + cooldown && cooldown > 0
    ensures var n := Record(db, d, worker, claim, Delivered, now, p, true).0;
      Enqueue(n, r, cooldown, secret, true) == (n, Suppressed)
  {
    var (n, e) := (Record(db, d, worker, claim, Delivered, now, p, true).0, db.dispatches[d].event);
    DeliveryCloses(db, d, worker, claim, now, p);
    RecordKeeps(db, d, worker, claim, Delivered, now, p, true);
    OnlyLiveHolderCompletes(db, d, worker, claim, Delivered, now, p, true);
    assert HasActive(db.dispatches, e);
    ClosedSuppresses(db, n, d, e, r, cooldown, secret);
  }

  // ------------------------------------------------------------------ prune

  /** Exactly the events that wait for nothing and were created before the cutoff are gone. */
  ghost predicate GoneBefore(evs: Events, left: Events, cutoff: Time) {
    && left.Keys <= evs.Keys
    && (forall e | e in evs :: e !in left <==> evs[e].status != EventPending && evs[e].createdAt < cutoff)
    && (forall e | e in left :: left[e] == evs[e])
  }

  /** Exactly the rows of events that are gone are gone too. */
  ghost predicate RowsFollow(db: Db, n: Db) {
    && n.dispatches.Keys <= db.dispatches.Keys
    && (forall d | d in db.dispatches :: d in n.dispatches <==> db.dispatches[d].event in n.events)
    && (forall d | d in n.dispatches :: n.dispatches[d] == db.dispatches[d])
  }

  ghost predicate Pruned(db: Db, n: Db, cutoff: Time) {
    && GoneBefore(db.events, n.events, cutoff) && RowsFollow(db, n)
    && n.lastEvent == db.lastEvent && n.lastDispatch == db.lastDispatch
  }

  /** Deleting the prunable events is exactly that. */
  lemma PrunedExactly(db: Db, n: Db, cutoff: Time)
    requires Schema(db)
    ensures Pruned(db, n, cutoff) <==> n == DeleteEvents(db, PrunableIds(db, cutoff))
    ensures Pruned(db, n, cutoff) ==> PrunableIds(db, cutoff) == db.events.Keys - n.events.Keys
  {
    var (m, gone) := (DeleteEvents(db, PrunableIds(db, cutoff)), PrunableIds(db, cutoff));
    assert forall e | e in db.events :: e in m.events <==> e !in gone;
    if Pruned(db, n, cutoff) {
      assert n.events == m.events;
      assert n.dispatches == m.dispatches;
    }
  }
}
