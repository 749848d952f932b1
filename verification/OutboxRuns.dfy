/** Whole runs of the outbox: any number of producers, workers and pruners, clocks that may jump,
    workers that vanish, under one retry policy. History variables count what happened so far. */
module OutboxRuns {
  import opened AlertRows
  import opened OutboxSpec
  import opened OutboxSafety

  /** claimed: how often a dispatch was ever claimed; inHand: claims whose sink call has not happened;
      calls: sink calls made; completions: record calls of a claim that changed status or attempts. */
  datatype World = World(
    db: Db, issued: set<string>, claimed: map<DispatchId, nat>, inHand: map<DispatchId, nat>,
    calls: map<DispatchId, nat>, completions: map<(DispatchId, string), nat>)

  datatype Step =
    | DoEnqueue(request: Request, cooldown: int, secret: nat, keyCurrent: bool)
    | DoClaim(worker: string, claim: string, now: Time, duration: int, limit: nat, picked: set<DispatchId>)
    | DoDeliver(dispatch: DispatchId)
    | DoRecord(dispatch: DispatchId, worker: string, claim: string, status: DispatchStatus, now: Time, keyCurrent: bool)
    | DoPrune(ids: set<EventId>, cutoff: Time)

  function At(m: map<DispatchId, nat>, d: DispatchId): nat {
    if d in m then m[d] else 0
  }

  function Completions(m: map<(DispatchId, string), nat>, d: DispatchId, claim: string): nat {
    if (d, claim) in m then m[(d, claim)] else 0
  }

  function Bump(m: map<DispatchId, nat>, ids: set<DispatchId>): map<DispatchId, nat> {
    map d | d in m.Keys + ids :: At(m, d) + (if d in ids then 1 else 0)
  }

  predicate Changed(a: Dispatch, b: Dispatch) {
    a.status != b.status || a.attempts != b.attempts
  }

  /** The world after a record call of claim on d left the tables as n. */
  function Noted(w: World, n: Db, d: DispatchId, claim: string): World {
    var hit := d in w.db.dispatches && d in n.dispatches && Changed(w.db.dispatches[d], n.dispatches[d]);
    w.(db := n,
       completions := if hit then w.completions[(d, claim) := Completions(w.completions, d, claim) + 1]
         else w.completions)
  }

  /** The world after a claim of picked left the tables as n. */
  function Leased(w: World, n: Db, picked: set<DispatchId>, claim: string): World {
    w.(db := n, issued := w.issued + {claim}, claimed := Bump(w.claimed, picked), inHand := Bump(w.inHand, picked))
  }

  const START := World(EMPTY_DB, {}, map[], map[], map[], map[])

  /** Claim tokens are random, so a claim never reuses an issued one. */
  ghost predicate Enabled(w: World, s: Step, p: Policy) {
    match s
    case DoEnqueue(_, _, _, _) => true
    case DoClaim(worker, claim, now, duration, limit, picked) =>
      && worker != "" && duration > 0 && limit > 0 && claim != "" && claim !in w.issued
      && ClaimChoice(DeadLetterExpired(w.db, now, p.maxAttempts), picked, now, p.maxAttempts, limit)
    case DoDeliver(d) => At(w.inHand, d) > 0
    case DoRecord(_, _, _, _, _, _) => true
    case DoPrune(ids, cutoff) => ids <= PrunableIds(w.db, cutoff)
  }

  ghost function Apply(w: World, s: Step, p: Policy): World
    requires Enabled(w, s, p)
  {
    match s
    case DoEnqueue(r, cooldown, secret, keyCurrent) => w.(db := Enqueue(w.db, r, cooldown, secret, keyCurrent).0)
    case DoClaim(worker, claim, now, duration, limit, picked) =>
      Leased(w, Claim(w.db, picked, worker, claim, now, duration, p.maxAttempts), picked, claim)
    case DoDeliver(d) => w.(calls := Bump(w.calls, {d}), inHand := w.inHand[d := At(w.inHand, d) - 1])
    case DoRecord(d, worker, claim, status, now, keyCurrent) =>
      Noted(w, Record(w.db, d, worker, claim, status, now, p, keyCurrent).0, d, claim)
    case DoPrune(ids, cutoff) => w.(db := DeleteEvents(w.db, ids))
  }

  ghost predicate Run(ws: seq<World>, steps: seq<Step>, p: Policy) {
    && |ws| == |steps| + 1 && ws[0] == START
    && forall i | 0 <= i < |steps| :: Enabled(ws[i], steps[i], p) && ws[i + 1] == Apply(ws[i], steps[i], p)
  }

  // ----------------------------------------------------- the run invariant

  function Charged(d: Dispatch): nat {
    d.attempts + (if d.status.InFlight? then 1 else 0)
  }

  /** Every claim is either an attempt already counted or the one in flight. */
  ghost predicate ClaimsAccounted(w: World, max: int) {
    && (forall d | d in w.db.dispatches :: At(w.claimed, d) == Charged(w.db.dispatches[d]))
    && (forall d: DispatchId :: At(w.claimed, d) <= max)
    && (forall d: DispatchId | d > w.db.lastDispatch :: At(w.claimed, d) == 0)
  }

  ghost predicate CallsAccounted(w: World) {
    forall d: DispatchId :: At(w.calls, d) + At(w.inHand, d) == At(w.claimed, d)
  }

  ghost predicate HeldBy(w: World, d: DispatchId, claim: string) {
    d in w.db.dispatches && w.db.dispatches[d].status.InFlight? && w.db.dispatches[d].claim == claim
  }

  ghost predicate CompletedOnce(w: World) {
    && (forall d | d in w.db.dispatches && w.db.dispatches[d].status.InFlight? :: w.db.dispatches[d].claim in w.issued)
    && (forall d: DispatchId, c: string :: Completions(w.completions, d, c) <= 1)
    && (forall d: DispatchId, c: string | Completions(w.completions, d, c) == 1 :: c in w.issued && !HeldBy(w, d, c))
  }

  ghost predicate HistoryInv(w: World, max: int) {
    ClaimsAccounted(w, max) && CallsAccounted(w) && CompletedOnce(w)
  }

  ghost predicate RunInv(w: World, max: int) {
    Inv(w.db, max) && HistoryInv(w, max)
  }

  /** n only adds fresh, unclaimed rows to db, or drops rows. */
  ghost predicate FreshOrGone(db: Db, n: Db) {
    && n.lastDispatch >= db.lastDispatch
    && (forall d | d in n.dispatches && d in db.dispatches :: n.dispatches[d] == db.dispatches[d])
    && (forall d | d in n.dispatches && d !in db.dispatches ::
          d > db.lastDispatch && n.dispatches[d].status.Pending? && n.dispatches[d].attempts == 0)
  }

  lemma FreshHistory(w: World, n: Db, max: int)
    requires HistoryInv(w, max) && FreshOrGone(w.db, n)
    ensures HistoryInv(w.(db := n), max)
  {
    var v := w.(db := n);
    forall d | d in n.dispatches ensures At(w.claimed, d) == Charged(n.dispatches[d]) {
      if d !in w.db.dispatches { assert d > w.db.lastDispatch; assert At(w.claimed, d) == 0; }
    }
    forall d: DispatchId, c: string | HeldBy(v, d, c) ensures HeldBy(w, d, c) {
      assert d in w.db.dispatches;
    }
  }

  /** What a claim of picked does to every row, as far as the history counts it. */
  ghost predicate ClaimEffect(db: Db, n: Db, picked: set<DispatchId>, claim: string) {
    && n.dispatches.Keys == db.dispatches.Keys && n.lastDispatch == db.lastDispatch && picked <= db.dispatches.Keys
    && (forall d | d in db.dispatches ::
      Charged(n.dispatches[d]) == Charged(db.dispatches[d]) + (if d in picked then 1 else 0))
    && (forall d | d in n.dispatches && n.dispatches[d].status.InFlight? ::
          if d in picked then n.dispatches[d].claim == claim
          else db.dispatches[d].status.InFlight? && n.dispatches[d].claim == db.dispatches[d].claim)
  }

  lemma ClaimHasEffect(db: Db, picked: set<DispatchId>, worker: string, claim: string, now: Time, duration: int,
        max: int)
    requires picked <= ClaimableIds(DeadLetterExpired(db, now, max), now, max)
    ensures ClaimEffect(db, Claim(db, picked, worker, claim, now, duration, max), picked, claim)
  {
  }

  lemma BumpAt(m: map<DispatchId, nat>, ids: set<DispatchId>, d: DispatchId)
    ensures At(Bump(m, ids), d) == At(m, d) + (if d in ids then 1 else 0)
  {
  }

  lemma ClaimCounts(w: World, n: Db, picked: set<DispatchId>, claim: string, max: int)
    requires ClaimsAccounted(w, max) && ClaimEffect(w.db, n, picked, claim) && AttemptsBounded(n.dispatches, max)
    requires forall d | d in n.dispatches :: d <= n.lastDispatch
    ensures ClaimsAccounted(Leased(w, n, picked, claim), max)
  {
    var claimed := Bump(w.claimed, picked);
    forall d: DispatchId
      ensures At(claimed, d) <= max && (d in n.dispatches ==> At(claimed, d) == Charged(n.dispatches[d]))
      ensures d > n.lastDispatch ==> At(claimed, d) == 0
    {
      BumpAt(w.claimed, picked, d);
      if d in n.dispatches { assert Charged(n.dispatches[d]) <= max; }
    }
  }

  lemma ClaimCalls(w: World, n: Db, picked: set<DispatchId>, claim: string)
    requires CallsAccounted(w)
    ensures CallsAccounted(Leased(w, n, picked, claim))
  {
    forall d: DispatchId ensures At(w.calls, d) + At(Bump(w.inHand, picked), d) == At(Bump(w.claimed, picked), d) {
      BumpAt(w.claimed, picked, d);
      BumpAt(w.inHand, picked, d);
    }
  }

  lemma ClaimCompletions(w: World, n: Db, picked: set<DispatchId>, claim: string)
    requires CompletedOnce(w) && ClaimEffect(w.db, n, picked, claim) && claim !in w.issued
    ensures CompletedOnce(Leased(w, n, picked, claim))
  {
    var v := Leased(w, n, picked, claim);
    forall d: DispatchId, c: string | Completions(w.completions, d, c) == 1 ensures !HeldBy(v, d, c) {
      assert !HeldBy(w, d, c) && c != claim;
    }
  }

  lemma ClaimHistory(w: World, n: Db, picked: set<DispatchId>, claim: string, max: int)
    requires HistoryInv(w, max) && ClaimEffect(w.db, n, picked, claim) && claim !in w.issued && Inv(n, max)
    ensures HistoryInv(Leased(w, n, picked, claim), max)
  {
    ClaimCounts(w, n, picked, claim, max);
    ClaimCalls(w, n, picked, claim);
    ClaimCompletions(w, n, picked, claim);
  }

  lemma ClaimStep(w: World, s: Step, p: Policy)
    requires RunInv(w, p.maxAttempts) && s.DoClaim? && Enabled(w, s, p)
    ensures RunInv(Apply(w, s, p), p.maxAttempts)
  {
    var duration := s.duration;
    var n := Claim(w.db, s.picked, s.worker, s.claim, s.now, duration, p.maxAttempts);
    ClaimKeeps(w.db, s.picked, s.worker, s.claim, s.now, duration, p.maxAttempts);
    ClaimHasEffect(w.db, s.picked, s.worker, s.claim, s.now, duration, p.maxAttempts);
    ClaimHistory(w, n, s.picked, s.claim, p.maxAttempts);
  }

  /** A record call changes at most row d, which then leaves flight with one more attempt. */
  ghost predicate RecordEffect(db: Db, n: Db, d: DispatchId, claim: string) {
    && n.dispatches.Keys == db.dispatches.Keys && n.lastDispatch == db.lastDispatch
    && (forall c | c in db.dispatches ::
          && Charged(n.dispatches[c]) == Charged(db.dispatches[c])
          && n.dispatches[c].claim == db.dispatches[c].claim
          && (n.dispatches[c].status.InFlight? ==> db.dispatches[c].status.InFlight?)
          && (Changed(db.dispatches[c], n.dispatches[c]) ==>
                c == d && db.dispatches[c].status.InFlight? && !n.dispatches[c].status.InFlight?
                  && n.dispatches[c].claim == claim))
  }

  lemma RecordHasEffect(db: Db, d: DispatchId, worker: string, claim: string, status: DispatchStatus, now: Time,
        p: Policy, keyCurrent: bool)
    ensures RecordEffect(db, Record(db, d, worker, claim, status, now, p, keyCurrent).0, d, claim)
  {
    var (n, res) := Record(db, d, worker, claim, status, now, p, keyCurrent);
    OnlyLiveHolderCompletes(db, d, worker, claim, status, now, p, keyCurrent);
  }

  lemma RecordCompletions(w: World, n: Db, d: DispatchId, claim: string)
    requires CompletedOnce(w) && RecordEffect(w.db, n, d, claim)
    ensures CompletedOnce(Noted(w, n, d, claim))
  {
    var v := Noted(w, n, d, claim);
    forall b: DispatchId, c: string | HeldBy(v, b, c) ensures HeldBy(w, b, c) {
    }
    forall b: DispatchId, c: string | Completions(v.completions, b, c) == 1 ensures c in v.issued && !HeldBy(v, b, c) {
      if Completions(w.completions, b, c) != 1 {
        assert (b, c) == (d, claim) && HeldBy(w, d, claim);
      }
    }
    forall b: DispatchId, c: string ensures Completions(v.completions, b, c) <= 1 {
      if v.completions != w.completions {
        assert HeldBy(w, d, claim) && Completions(w.completions, d, claim) != 1;
        assert Completions(w.completions, b, c) <= 1;
      }
    }
  }

  lemma RecordHistory(w: World, n: Db, d: DispatchId, claim: string, max: int)
    requires HistoryInv(w, max) && RecordEffect(w.db, n, d, claim)
    ensures HistoryInv(Noted(w, n, d, claim), max)
  {
    RecordCompletions(w, n, d, claim);
  }

  lemma RecordStep(w: World, s: Step, p: Policy)
    requires RunInv(w, p.maxAttempts) && s.DoRecord? && Enabled(w, s, p)
    ensures RunInv(Apply(w, s, p), p.maxAttempts)
  {
    RecordKeeps(w.db, s.dispatch, s.worker, s.claim, s.status, s.now, p, s.keyCurrent);
    RecordHasEffect(w.db, s.dispatch, s.worker, s.claim, s.status, s.now, p, s.keyCurrent);
    var n := Record(w.db, s.dispatch, s.worker, s.claim, s.status, s.now, p, s.keyCurrent).0;
    RecordHistory(w, n, s.dispatch, s.claim, p.maxAttempts);
  }

  lemma EnqueueStep(w: World, s: Step, p: Policy)
    requires RunInv(w, p.maxAttempts) && s.DoEnqueue? && Enabled(w, s, p)
    ensures RunInv(Apply(w, s, p), p.maxAttempts)
  {
    EnqueueKeeps(w.db, s.request, s.cooldown, s.secret, s.keyCurrent, p.maxAttempts);
    EnqueueAdds(w.db, s.request, s.cooldown, s.secret, s.keyCurrent);
    FreshHistory(w, Enqueue(w.db, s.request, s.cooldown, s.secret, s.keyCurrent).0, p.maxAttempts);
  }

  lemma PruneStep(w: World, s: Step, p: Policy)
    requires RunInv(w, p.maxAttempts) && s.DoPrune? && Enabled(w, s, p)
    ensures RunInv(Apply(w, s, p), p.maxAttempts)
  {
    PruneKeeps(w.db, s.ids, s.cutoff, p.maxAttempts);
    FreshHistory(w, DeleteEvents(w.db, s.ids), p.maxAttempts);
  }

  lemma DeliverStep(w: World, s: Step, p: Policy)
    requires RunInv(w, p.maxAttempts) && s.DoDeliver? && Enabled(w, s, p)
    ensures RunInv(Apply(w, s, p), p.maxAttempts)
  {
    var n := Apply(w, s, p);
    forall d: DispatchId, c: string | HeldBy(n, d, c) ensures HeldBy(w, d, c) {
    }
  }

  lemma StepKeeps(w: World, s: Step, p: Policy)
    requires RunInv(w, p.maxAttempts) && Enabled(w, s, p)
    ensures RunInv(Apply(w, s, p), p.maxAttempts)
  {
    match s
    case DoEnqueue(_, _, _, _) => EnqueueStep(w, s, p);
    case DoClaim(_, _, _, _, _, _) => ClaimStep(w, s, p);
    case DoDeliver(_) => DeliverStep(w, s, p);
    case DoRecord(_, _, _, _, _, _) => RecordStep(w, s, p);
    case DoPrune(_, _) => PruneStep(w, s, p);
  }

  lemma {:induction false} RunKeeps(ws: seq<World>, steps: seq<Step>, p: Policy, i: nat)
    requires Run(ws, steps, p) && i < |ws|
    ensures RunInv(ws[i], p.maxAttempts)
  {
    if i > 0 {
      RunKeeps(ws, steps, p, i - 1);
      StepKeeps(ws[i - 1], steps[i - 1], p);
    }
  }

  // -------------------------------------------------------------- theorems

  /** Over every run: an event is pending exactly while it has undelivered work, its status is the one
      its dispatches imply, and a hash has at most one pending event. */
  lemma StatusAlwaysDerived(ws: seq<World>, steps: seq<Step>, p: Policy, i: nat)
    requires Run(ws, steps, p) && i < |ws|
    ensures StatusDerived(ws[i].db) && PendingIffActive(ws[i].db) && UniquePending(ws[i].db.events) && Schema(ws[i].db)
  {
    RunKeeps(ws, steps, p, i);
    PendingExactlyWhileActive(ws[i].db);
  }

  /** The "conflict without pending row" branch of enqueue is dead code in every run. */
  lemma ConflictUnreachable(ws: seq<World>, steps: seq<Step>, p: Policy, i: nat, r: Request, cooldown: int, secret: nat)
    requires Run(ws, steps, p) && i < |ws|
    ensures Enqueue(ws[i].db, r, cooldown, secret, true).1 != Conflict
  {
    RunKeeps(ws, steps, p, i);
    EnqueueKeeps(ws[i].db, r, cooldown, secret, true, p.maxAttempts);
  }

  /** However often leases expire or workers die, a dispatch is claimed at most maxAttempts times,
      exactly attempts times plus once if in flight, and its sink is called no more often than that. */
  lemma SinkCallsBounded(ws: seq<World>, steps: seq<Step>, p: Policy, i: nat, d: DispatchId)
    requires Run(ws, steps, p) && i < |ws|
    ensures At(ws[i].calls, d) <= At(ws[i].claimed, d) <= p.maxAttempts
    ensures d in ws[i].db.dispatches ==> At(ws[i].claimed, d) == Charged(ws[i].db.dispatches[d])
    ensures d in ws[i].db.dispatches && Active(ws[i].db.dispatches[d].status) ==>
      ws[i].db.dispatches[d].attempts < p.maxAttempts
  {
    RunKeeps(ws, steps, p, i);
  }

  /** One claim completes one dispatch at most once in a whole run. */
  lemma ClaimCompletesOnce(ws: seq<World>, steps: seq<Step>, p: Policy, i: nat, d: DispatchId, claim: string)
    requires Run(ws, steps, p) && i < |ws|
    ensures Completions(ws[i].completions, d, claim) <= 1
  {
    RunKeeps(ws, steps, p, i);
  }

  lemma TerminalStaysOneStep(w: World, s: Step, p: Policy, e: EventId)
    requires RunInv(w, p.maxAttempts) && Enabled(w, s, p)
    requires e in w.db.events && !w.db.events[e].status.EventPending?
    ensures e in Apply(w, s, p).db.events ==> Apply(w, s, p).db.events[e] == w.db.events[e]
  {
    match s
    case DoEnqueue(r, cooldown, secret, keyCurrent) => EnqueueAdds(w.db, r, cooldown, secret, keyCurrent);
    case DoClaim(worker, claim, now, duration, limit, picked) =>
      ClaimKeeps(w.db, picked, worker, claim, now, duration, p.maxAttempts);
    case DoDeliver(_) =>
    case DoRecord(d, worker, claim, status, now, keyCurrent) =>
      RecordKeeps(w.db, d, worker, claim, status, now, p, keyCurrent);
    case DoPrune(_, _) =>
  }

  /** Enqueue adds an event only under a new id. */
  lemma EnqueueIds(db: Db, r: Request, cooldown: int, secret: nat, keyCurrent: bool)
    requires Schema(db)
    ensures var n := Enqueue(db, r, cooldown, secret, keyCurrent).0;
      db.lastEvent <= n.lastEvent && forall e | e in n.events :: e in db.events || e > db.lastEvent
  {
    var (n, res) := Enqueue(db, r, cooldown, secret, keyCurrent);
    if res.Existing? {
      AddDispatchesExtends(db, res.id, r.sinks, r.createdAt);
    } else if res.Inserted? {
      AddDispatchesExtends(InsertEvent(db, r, Hmac(secret, r.key)), res.id, r.sinks, r.createdAt);
    }
  }

  /** A deleted event id never comes back. */
  lemma GoneStaysGone(w: World, s: Step, p: Policy, e: EventId)
    requires RunInv(w, p.maxAttempts) && Enabled(w, s, p)
    requires e <= w.db.lastEvent && e !in w.db.events
    ensures e !in Apply(w, s, p).db.events && e <= Apply(w, s, p).db.lastEvent
  {
    if s.DoEnqueue? { EnqueueIds(w.db, s.request, s.cooldown, s.secret, s.keyCurrent); }
  }

  lemma LastEventGrows(w: World, s: Step, p: Policy)
    requires RunInv(w, p.maxAttempts) && Enabled(w, s, p)
    ensures w.db.lastEvent <= Apply(w, s, p).db.lastEvent
  {
    if s.DoEnqueue? { EnqueueIds(w.db, s.request, s.cooldown, s.secret, s.keyCurrent); }
  }

  /** Terminal events never reopen: later in the run the event is gone or unchanged. */
  lemma {:induction false} TerminalNeverReopens(ws: seq<World>, steps: seq<Step>, p: Policy, i: nat, j: nat, e: EventId)
    requires Run(ws, steps, p) && i <= j < |ws|
    requires e in ws[i].db.events && !ws[i].db.events[e].status.EventPending?
    ensures e <= ws[j].db.lastEvent
    ensures e in ws[j].db.events ==> ws[j].db.events[e] == ws[i].db.events[e]
    decreases j - i
  {
    if i == j {
      RunKeeps(ws, steps, p, i);
    } else {
      TerminalNeverReopens(ws, steps, p, i, j - 1, e);
      RunKeeps(ws, steps, p, j - 1);
      if e in ws[j - 1].db.events {
        TerminalStaysOneStep(ws[j - 1], steps[j - 1], p, e);
        RunKeeps(ws, steps, p, j);
        LastEventGrows(ws[j - 1], steps[j - 1], p);
      } else {
        GoneStaysGone(ws[j - 1], steps[j - 1], p, e);
      }
    }
  }

  /** Only pruning deletes rows. */
  lemma RowsStay(w: World, s: Step, p: Policy, d: DispatchId)
    requires RunInv(w, p.maxAttempts) && Enabled(w, s, p) && !s.DoPrune? && d in w.db.dispatches
    ensures d in Apply(w, s, p).db.dispatches
  {
    if s.DoEnqueue? { EnqueueAdds(w.db, s.request, s.cooldown, s.secret, s.keyCurrent); }
  }

  /** Pruning in a run never removes a dispatch that was still to be delivered. */
  lemma PruneTakesNoWork(ws: seq<World>, steps: seq<Step>, p: Policy, i: nat, d: DispatchId)
    requires Run(ws, steps, p) && i < |steps|
    requires d in ws[i].db.dispatches && Active(ws[i].db.dispatches[d].status)
    ensures d in ws[i + 1].db.dispatches
  {
    RunKeeps(ws, steps, p, i);
    var (w, s) := (ws[i], steps[i]);
    if s.DoPrune? { PruneKeeps(w.db, s.ids, s.cutoff, p.maxAttempts); } else { RowsStay(w, s, p, d); }
  }

  lemma FinishedUnclaimed(db: Db, picked: set<DispatchId>, worker: string, claim: string, now: Time, duration: int,
        max: int, d: DispatchId)
    requires picked <= ClaimableIds(DeadLetterExpired(db, now, max), now, max)
    requires d in db.dispatches && !Active(db.dispatches[d].status)
    ensures var n := Claim(db, picked, worker, claim, now, duration, max);
      d in n.dispatches && n.dispatches[d] == db.dispatches[d] && n.lastDispatch == db.lastDispatch
  {
    assert DeadLetterRows(db.dispatches, now, max)[d] == db.dispatches[d];
  }

  lemma FinishedUnrecorded(db: Db, c: DispatchId, worker: string, claim: string, status: DispatchStatus, now: Time,
        p: Policy, keyCurrent: bool, d: DispatchId)
    requires d in db.dispatches && !Active(db.dispatches[d].status)
    ensures var n := Record(db, c, worker, claim, status, now, p, keyCurrent).0;
      d in n.dispatches && n.dispatches[d] == db.dispatches[d] && n.lastDispatch == db.lastDispatch
  {
  }

  lemma FinishedRowStep(w: World, s: Step, p: Policy, d: DispatchId)
    requires RunInv(w, p.maxAttempts) && Enabled(w, s, p)
    requires d in w.db.dispatches && !Active(w.db.dispatches[d].status)
    ensures d in Apply(w, s, p).db.dispatches ==> Apply(w, s, p).db.dispatches[d] == w.db.dispatches[d]
    ensures d <= w.db.lastDispatch <= Apply(w, s, p).db.lastDispatch
  {
    match s
    case DoEnqueue(r, cooldown, secret, keyCurrent) => EnqueueAdds(w.db, r, cooldown, secret, keyCurrent);
    case DoClaim(worker, claim, now, duration, limit, picked) =>
      FinishedUnclaimed(w.db, picked, worker, claim, now, duration, p.maxAttempts, d);
    case DoDeliver(_) =>
    case DoRecord(c, worker, claim, status, now, keyCurrent) =>
      FinishedUnrecorded(w.db, c, worker, claim, status, now, p, keyCurrent, d);
    case DoPrune(_, _) =>
  }

  lemma DeletedRowStep(w: World, s: Step, p: Policy, d: DispatchId)
    requires RunInv(w, p.maxAttempts) && Enabled(w, s, p)
    requires d <= w.db.lastDispatch && d !in w.db.dispatches
    ensures d !in Apply(w, s, p).db.dispatches && d <= Apply(w, s, p).db.lastDispatch
  {
    if s.DoEnqueue? { EnqueueAdds(w.db, s.request, s.cooldown, s.secret, s.keyCurrent); }
  }

  /** A finished dispatch row is frozen: at every later point of the run it is gone or unchanged. */
  lemma {:induction false} FinishedRowsFrozen(ws: seq<World>, steps: seq<Step>, p: Policy, i: nat, j: nat,
        d: DispatchId)
    requires Run(ws, steps, p) && i <= j < |ws|
    requires d in ws[i].db.dispatches && !Active(ws[i].db.dispatches[d].status)
    ensures d <= ws[j].db.lastDispatch
    ensures d in ws[j].db.dispatches ==> ws[j].db.dispatches[d] == ws[i].db.dispatches[d]
    decreases j - i
  {
    if i == j {
      RunKeeps(ws, steps, p, i);
    } else {
      FinishedRowsFrozen(ws, steps, p, i, j - 1, d);
      RunKeeps(ws, steps, p, j - 1);
      if d in ws[j - 1].db.dispatches {
        FinishedRowStep(ws[j - 1], steps[j - 1], p, d);
      } else {
        DeletedRowStep(ws[j - 1], steps[j - 1], p, d);
      }
    }
  }

  /** Repeating a record call whose outcome was final, at any later point of the run and whatever
      happened in between, is answered with the same row and changes nothing, as long as the row exists. */
  lemma ReplayAtAnyLaterTime(ws: seq<World>, steps: seq<Step>, p: Policy, i: nat, j: nat, later: Time)
    requires Run(ws, steps, p) && i < j < |ws| && steps[i].DoRecord?
    requires var r := steps[i];
      Record(ws[i].db, r.dispatch, r.worker, r.claim, r.status, r.now, p, r.keyCurrent).1.Recorded?
    requires steps[i].dispatch in ws[j].db.dispatches && Terminal(ws[i + 1].db.dispatches[steps[i].dispatch].status)
    ensures var (r, db) := (steps[i], ws[j].db);
      Record(db, r.dispatch, r.worker, r.claim, r.status, later, p, true) ==
      (db, Replayed(ws[i + 1].db.dispatches[r.dispatch]))
  {
    var (r, db) := (steps[i], ws[j].db);
    RecordIdempotent(ws[i].db, r.dispatch, r.worker, r.claim, r.status, r.now, later, p);
    FinishedRowsFrozen(ws, steps, p, i + 1, j, r.dispatch);
    RunKeeps(ws, steps, p, j);
  }

  /** A claim that has completed its dispatch once in a run changes no status, attempt count or event
      by any further record call, also after the dispatch was requeued and claimed by others. */
  lemma SpentClaimChangesNothing(ws: seq<World>, steps: seq<Step>, p: Policy, i: nat, d: DispatchId, claim: string,
                                 worker: string, status: DispatchStatus, now: Time, keyCurrent: bool)
    requires Run(ws, steps, p) && i < |ws| && Completions(ws[i].completions, d, claim) >= 1
    ensures var (db, n) := (ws[i].db, Record(ws[i].db, d, worker, claim, status, now, p, keyCurrent).0);
      && n.events == db.events && n.dispatches.Keys == db.dispatches.Keys
      && forall c | c in db.dispatches ::
        n.dispatches[c].status == db.dispatches[c].status && n.dispatches[c].attempts == db.dispatches[c].attempts
  {
    RunKeeps(ws, steps, p, i);
    assert !HeldBy(ws[i], d, claim);
    OnlyLiveHolderCompletes(ws[i].db, d, worker, claim, status, now, p, keyCurrent);
  }
}
