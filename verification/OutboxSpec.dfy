/** The outbox transactions as functions on the tables: enqueue, claim, record and prune. */
module OutboxSpec {
  import opened AlertRows
  import RetryPolicy

  type Policy = p: RetryPolicy.Policy | RetryPolicy.Usable(p) witness RetryPolicy.Policy(3, 1, 1)

  // ---------------------------------------------------------------- enqueue

  datatype Request = Request(
    subject: Subject, key: string, cooldownKey: string, sinks: seq<string>, createdAt: Time)

  datatype EnqueueResult = Inserted(id: EventId) | Existing(id: EventId) | Suppressed | Invalid | Locked | Conflict

  predicate ValidRequest(r: Request) {
    && r.subject.kind != ""
    && (r.subject.service != "" || r.subject.repository != "" || r.subject.agent != "")
    && r.subject.newState != ""
    && r.key != ""
    && r.sinks != [] && "" !in r.sinks
  }

  predicate HasSink(rows: Rows, e: EventId, sink: string) {
    exists d | d in rows :: rows[d].event == e && rows[d].sink == sink
  }

  function FreshDispatch(e: EventId, sink: string, at: Time): Dispatch {
    Dispatch(e, sink, Pending, "", "", 0, 0, 0, 0, at)
  }

  /** INSERT ... ON CONFLICT(event_id, sink) DO NOTHING */
  function AddDispatch(db: Db, e: EventId, sink: string, at: Time): Db {
    if HasSink(db.dispatches, e, sink) then db
    else db.(dispatches := db.dispatches[db.lastDispatch + 1 := FreshDispatch(e, sink, at)],
             lastDispatch := db.lastDispatch + 1)
  }

  function AddDispatches(db: Db, e: EventId, sinks: seq<string>, at: Time): Db {
    if sinks == [] then db
    else AddDispatch(AddDispatches(db, e, sinks[..|sinks| - 1], at), e, sinks[|sinks| - 1], at)
  }

  predicate PendingWith(db: Db, h: Hash, e: EventId) {
    e in db.events && db.events[e].hash == h && db.events[e].status.EventPending?
  }

  /** The time a dispatch row closed, as the cooldown query reads it. */
  function ClosedAt(d: Dispatch): Time {
    if d.deliveredAt != 0 then d.deliveredAt else d.updatedAt
  }

  /** Some earlier event of the same identity closed less than cooldown before at. Without a cooldown
      key the identity is the dedupe hash, with one it is the subject. */
  predicate InCooldown(db: Db, r: Request, h: Hash, cooldown: int) {
    && cooldown > 0
    && exists d | d in db.dispatches ::
      var e := db.dispatches[d].event;
      && e in db.events
      && (if r.cooldownKey == "" then db.events[e].hash == h else db.events[e].subject == r.subject)
      && (db.events[e].status.EventDelivered? || db.events[e].status.EventPartial?)
      && !HasActive(db.dispatches, e)
      && ClosedAt(db.dispatches[d]) > 0
      && r.createdAt - ClosedAt(db.dispatches[d]) < cooldown
  }

  function InsertEvent(db: Db, r: Request, h: Hash): Db {
    db.(events := db.events[db.lastEvent + 1 := Event(r.subject, r.key, h, r.createdAt, EventPending)],
        lastEvent := db.lastEvent + 1)
  }

  ghost function Enqueue(db: Db, r: Request, cooldown: int, secret: nat, keyCurrent: bool): (Db, EnqueueResult) {
    var h := Hmac(secret, r.key);
    if !ValidRequest(r) then (db, Invalid)
    else if !keyCurrent then (db, Locked)
    else if exists e :: PendingWith(db, h, e) && HasActive(db.dispatches, e) then
      var e :| PendingWith(db, h, e) && HasActive(db.dispatches, e);
      (AddDispatches(db, e, r.sinks, r.createdAt), Existing(e))
    else if InCooldown(db, r, h, cooldown) then (db, Suppressed)
    else if exists e :: PendingWith(db, h, e) then (db, Conflict)
    else
      (AddDispatches(InsertEvent(db, r, h), db.lastEvent + 1, r.sinks, r.createdAt), Inserted(db.lastEvent + 1))
  }

  // ------------------------------------------------------------------ claim

  predicate LeaseExpired(d: Dispatch, now: Time) {
    d.status.InFlight? && d.lease <= now
  }

  predicate OutOfAttempts(d: Dispatch, now: Time, max: int) {
    LeaseExpired(d, now) && d.attempts + 1 >= max
  }

  function DeadLetterRow(d: Dispatch, now: Time): Dispatch {
    d.(attempts := d.attempts + 1, status := DeadLettered, worker := "", claim := "",
       lease := 0, nextAttempt := 0, updatedAt := now)
  }

  function DeadLetterRows(rows: Rows, now: Time, max: int): Rows {
    map d | d in rows :: if OutOfAttempts(rows[d], now, max) then DeadLetterRow(rows[d], now) else rows[d]
  }

  function ExpiredEvents(rows: Rows, now: Time, max: int): set<EventId> {
    set d | d in rows && OutOfAttempts(rows[d], now, max) :: rows[d].event
  }

  /** syncAlertEventStatus for every event in ids. */
  function SyncEvents(db: Db, ids: set<EventId>): Db {
    db.(events := map e | e in db.events ::
      if e in ids then db.events[e].(status := DerivedStatus(db.dispatches, e)) else db.events[e])
  }

  function DeadLetterExpired(db: Db, now: Time, max: int): Db {
    SyncEvents(db.(dispatches := DeadLetterRows(db.dispatches, now, max)), ExpiredEvents(db.dispatches, now, max))
  }

  predicate Claimable(d: Dispatch, now: Time, max: int) {
    (d.status.Pending? && d.nextAttempt <= now) || (LeaseExpired(d, now) && d.attempts + 1 < max)
  }

  function ClaimableIds(db: Db, now: Time, max: int): set<DispatchId> {
    set d | d in db.dispatches && db.dispatches[d].event in db.events && Claimable(db.dispatches[d], now, max)
  }

  predicate TextLess(a: string, b: string) {
    b != [] && (a == [] || a[0] < b[0] || (a[0] == b[0] && TextLess(a[1..], b[1..])))
  }

  /** ORDER BY created_at, event id, sink */
  predicate Before(db: Db, c: DispatchId, d: DispatchId)
    requires c in db.dispatches && d in db.dispatches
    requires db.dispatches[c].event in db.events && db.dispatches[d].event in db.events
  {
    var (x, y) := (db.dispatches[c], db.dispatches[d]);
    var (s, t) := (db.events[x.event].createdAt, db.events[y.event].createdAt);
    s < t || (s == t && (x.event < y.event || (x.event == y.event && TextLess(x.sink, y.sink))))
  }

  /** picked is what the ordered, limited claim query may select. */
  predicate ClaimChoice(db: Db, picked: set<DispatchId>, now: Time, max: int, limit: nat) {
    var all := ClaimableIds(db, now, max);
    && picked <= all
    && |picked| <= limit
    && (|picked| < limit ==> picked == all)
    && forall c, d | c in picked && d in all - picked :: !Before(db, d, c)
  }

  function ClaimRow(d: Dispatch, worker: string, claim: string, now: Time, duration: int): Dispatch {
    d.(status := InFlight, worker := worker, claim := claim, lease := now + duration, nextAttempt := 0,
       attempts := d.attempts + (if d.status.InFlight? then 1 else 0), updatedAt := now)
  }

  function ClaimRows(db: Db, picked: set<DispatchId>, worker: string, claim: string, now: Time, duration: int): Db {
    db.(dispatches := map d | d in db.dispatches ::
      if d in picked then ClaimRow(db.dispatches[d], worker, claim, now, duration) else db.dispatches[d])
  }

  /** The whole claim transaction, given the selection made after dead-lettering. */
  function Claim(db: Db, picked: set<DispatchId>, worker: string, claim: string, now: Time, duration: int,
        max: int): Db {
    ClaimRows(DeadLetterExpired(db, now, max), picked, worker, claim, now, duration)
  }

  // ----------------------------------------------------------------- record

  datatype RecordResult =
    | Recorded(row: Dispatch) | Replayed(row: Dispatch)
    | BadRequest | KeyLocked | NotFound | ClaimNotHeld | LeaseGone | TerminalConflict

  predicate Holds(d: Dispatch, worker: string, claim: string) {
    d.worker == worker && d.claim == claim
  }

  function ResultStatus(status: DispatchStatus, attempts: nat, max: int): DispatchStatus {
    if status.Pending? && attempts >= max then DeadLettered else status
  }

  function CompletedRow(d: Dispatch, status: DispatchStatus, now: Time, p: Policy): Dispatch {
    var result := ResultStatus(status, d.attempts + 1, p.maxAttempts);
    d.(attempts := d.attempts + 1, status := result, lease := 0,
       nextAttempt := if result.Pending? then now + RetryPolicy.BackoffSpec(p, d.attempts + 1) else 0,
       deliveredAt := if result.Delivered? then now else 0, updatedAt := now)
  }

  function Record(db: Db, d: DispatchId, worker: string, claim: string, status: DispatchStatus, now: Time,
                  p: Policy, keyCurrent: bool): (Db, RecordResult)
  {
    if d == 0 || worker == "" || claim == "" || !(status.Pending? || Terminal(status)) then (db, BadRequest)
    else if !keyCurrent then (db, KeyLocked)
    else if d !in db.dispatches || db.dispatches[d].event !in db.events then (db, NotFound)
    else
      var row := db.dispatches[d];
      if Terminal(row.status) then
        if !Holds(row, worker, claim) then (db, ClaimNotHeld)
        else if ResultStatus(status, row.attempts, p.maxAttempts) != row.status then (db, TerminalConflict)
        else (db, Replayed(row))
      else if row.status.Pending? && Holds(row, worker, claim) && status.Pending? then (db, Replayed(row))
      else if !row.status.InFlight? || !Holds(row, worker, claim) then (db, ClaimNotHeld)
      else if row.lease <= now then
        (db.(dispatches := db.dispatches[d := row.(updatedAt := now)]), LeaseGone)
      else
        var done := CompletedRow(row, status, now, p);
        (SyncEvents(db.(dispatches := db.dispatches[d := done]), {row.event}), Recorded(done))
  }

  // ------------------------------------------------------------------ prune

  predicate Prunable(e: Event, cutoff: Time) {
    !e.status.EventPending? && e.createdAt < cutoff
  }

  /** DELETE of events with ON DELETE CASCADE. */
  function DeleteEvents(db: Db, ids: set<EventId>): Db {
    db.(events := map e | e in db.events && e !in ids :: db.events[e],
        dispatches := map d | d in db.dispatches && db.dispatches[d].event !in ids :: db.dispatches[d])
  }

  function PrunableIds(db: Db, cutoff: Time): set<EventId> {
    set e | e in db.events && Prunable(db.events[e], cutoff)
  }
}
