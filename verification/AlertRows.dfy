/** The two outbox tables, alert_events and alert_dispatches, as one value, with the
    predicates every other alert module speaks in. A NULL timestamp is the number 0. */
module AlertRows {
  type EventId = nat
  type DispatchId = nat
  type Time = int

  /** HMAC-SHA256 of a text under a secret, taken to be collision free. */
  datatype Hash = Hmac(secret: nat, text: string)

  datatype EventStatus = EventPending | EventDelivered | EventFailed | EventPartial | EventReset

  datatype DispatchStatus = Pending | InFlight | Delivered | DeadLettered | Reset | Skipped

  /** What an event is about; the cooldown of keyed producers compares exactly these columns. */
  datatype Subject = Subject(
    kind: string, service: string, target: string, repository: string, agent: string,
    oldState: string, newState: string)

  datatype Event = Event(subject: Subject, key: string, hash: Hash, createdAt: Time, status: EventStatus)

  datatype Dispatch = Dispatch(
    event: EventId, sink: string, status: DispatchStatus, worker: string, claim: string,
    attempts: nat, lease: Time, nextAttempt: Time, deliveredAt: Time, updatedAt: Time)

  type Events = map<EventId, Event>
  type Rows = map<DispatchId, Dispatch>

  datatype Db = Db(
    events: Events, dispatches: Rows,
    lastEvent: EventId, lastDispatch: DispatchId)

  predicate Active(s: DispatchStatus) {
    s.Pending? || s.InFlight?
  }

  /** Terminal outcomes that are never retried. */
  predicate Closed(s: DispatchStatus) {
    s.Delivered? || s.Skipped?
  }

  predicate Terminal(s: DispatchStatus) {
    Closed(s) || s.DeadLettered?
  }

  /** A row whose work is given up. */
  function ResetRow(d: Dispatch, now: Time): Dispatch {
    d.(status := Reset, worker := "", claim := "", lease := 0, nextAttempt := 0, updatedAt := now)
  }

  predicate HasActive(rows: Rows, e: EventId) {
    exists d | d in rows :: rows[d].event == e && Active(rows[d].status)
  }

  predicate HasClosed(rows: Rows, e: EventId) {
    exists d | d in rows :: rows[d].event == e && Closed(rows[d].status)
  }

  /** The event's row for the sink was delivered or skipped. */
  predicate SinkClosed(rows: Rows, e: EventId, sink: string) {
    exists k | k in rows :: rows[k].event == e && rows[k].sink == sink && Closed(rows[k].status)
  }

  predicate HasStatus(rows: Rows, e: EventId, s: DispatchStatus) {
    exists d | d in rows :: rows[d].event == e && rows[d].status == s
  }

  /** The event status that syncAlertEventStatus computes from an event's dispatch rows. */
  function DerivedStatus(rows: Rows, e: EventId): EventStatus {
    if HasActive(rows, e) then EventPending
    else if HasClosed(rows, e) then
      if HasStatus(rows, e, DeadLettered) then EventPartial else EventDelivered
    else if HasStatus(rows, e, DeadLettered) then EventFailed
    else if HasStatus(rows, e, Reset) then EventReset
    else EventFailed
  }

  predicate SameSlot(a: Dispatch, b: Dispatch) {
    a.event == b.event && a.sink == b.sink
  }

  ghost predicate UniqueSinks(rows: Rows) {
    forall c, d {:trigger SameSlot(rows[c], rows[d])} | c in rows && d in rows && SameSlot(rows[c], rows[d]) :: c == d
  }

  /** Foreign key, UNIQUE(event_id, sink) and AUTOINCREMENT ids. */
  ghost predicate Schema(db: Db) {
    && (forall d | d in db.dispatches :: db.dispatches[d].event in db.events && d <= db.lastDispatch)
    && (forall e | e in db.events :: e <= db.lastEvent)
    && UniqueSinks(db.dispatches)
  }

  predicate Rivals(a: Event, b: Event) {
    a.status.EventPending? && b.status.EventPending? && a.hash == b.hash
  }

  /** The partial unique index over pending events. */
  ghost predicate UniquePending(events: Events) {
    forall e, f {:trigger Rivals(events[e], events[f])} | e in events && f in events
      && Rivals(events[e], events[f]) :: e == f
  }

  ghost predicate PendingIffActive(db: Db) {
    forall e | e in db.events :: db.events[e].status.EventPending? <==> HasActive(db.dispatches, e)
  }

  ghost predicate StatusDerived(db: Db) {
    forall e | e in db.events :: db.events[e].status == DerivedStatus(db.dispatches, e)
  }

  const EMPTY_DB := Db(map[], map[], 0, 0)
}
