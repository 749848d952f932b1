/** Sink calls and completions over runs that mix every transaction on the outbox tables, with the history
    variables of OutboxRuns. Nothing here needs a rename to be safe. */
module AlertCalls {
  import AlertRuns
  import opened AlertRows
  import opened OutboxSafety
  import opened OutboxSpec
  import opened RouteTurns
  import opened StartupRepair
  import Runs = OutboxRuns

  type World = Runs.World

  /** A transaction, or the sink call of a claim in hand. */
  datatype Step = Transact(step: AlertRuns.Step) | Deliver(dispatch: DispatchId)

  /** One retry policy for all claims and completions, and claim tokens that are not used before. */
  ghost predicate Enabled(w: World, s: Step, p: Policy) {
    match s
    case Deliver(d) => Runs.At(w.inHand, d) > 0
    case Transact(t) =>
      && AlertRuns.Enabled(w.db, t)
      && (t.DoClaim? ==> t.max == p.maxAttempts && t.claim !in w.issued)
      && (t.DoRecord? ==> t.policy == p)
  }

  ghost function Apply(w: World, s: Step): World {
    match s
    case Deliver(d) =>
      var left := if Runs.At(w.inHand, d) > 0 then Runs.At(w.inHand, d) - 1 else 0;
      w.(calls := Runs.Bump(w.calls, {d}), inHand := w.inHand[d := left])
    case Transact(t) =>
      var n := AlertRuns.Apply(w.db, t);
      if t.DoClaim? then Runs.Leased(w, n, t.picked, t.claim)
      else if t.DoRecord? then Runs.Noted(w, n, t.dispatch, t.claim)
      else w.(db := n)
  }

  /** For work still to do, claims are the attempts counted plus the one in flight. */
  ghost predicate WorkAccounted(w: World, max: int) {
    && (forall d | d in w.db.dispatches && Active(w.db.dispatches[d].status) ::
      Runs.At(w.claimed, d) == Runs.Charged(w.db.dispatches[d]) && w.db.dispatches[d].attempts < max)
    && (forall d: DispatchId :: Runs.At(w.claimed, d) <= max)
    && (forall d: DispatchId | d > w.db.lastDispatch :: Runs.At(w.claimed, d) == 0)
  }

  ghost predicate Inv(w: World, max: int) {
    Schema(w.db) && WorkAccounted(w, max) && Runs.CallsAccounted(w) && Runs.CompletedOnce(w)
  }

  // ---- Steps that claim and complete nothing ----

  predicate SameWork(a: Dispatch, b: Dispatch) {
    a.status == b.status && a.attempts == b.attempts && a.claim == b.claim
  }

  /** Work that is left was there before with the same attempts and claim, or is fresh. */
  ghost predicate Quiet(db: Db, n: Db) {
    && n.lastDispatch >= db.lastDispatch
    && (forall d | d in n.dispatches && d !in db.dispatches ::
      d > db.lastDispatch && n.dispatches[d].status.Pending? && n.dispatches[d].attempts == 0)
    && (forall d | d in n.dispatches && d in db.dispatches && Active(n.dispatches[d].status) ::
      SameWork(db.dispatches[d], n.dispatches[d]))
  }

  lemma QuietKeeps(w: World, n: Db, max: int)
    requires Inv(w, max) && Quiet(w.db, n) && Schema(n) && max >= 1
    ensures Inv(w.(db := n), max)
  {
    var v := w.(db := n);
    forall d | d in n.dispatches && Active(n.dispatches[d].status)
      ensures Runs.At(w.claimed, d) == Runs.Charged(n.dispatches[d]) && n.dispatches[d].attempts < max
    {
      if d in w.db.dispatches { assert SameWork(w.db.dispatches[d], n.dispatches[d]); }
    }
    forall d: DispatchId, c: string | Runs.HeldBy(v, d, c) ensures Runs.HeldBy(w, d, c) {
      assert d in w.db.dispatches && SameWork(w.db.dispatches[d], n.dispatches[d]);
    }
    forall d | d in n.dispatches && n.dispatches[d].status.InFlight? ensures n.dispatches[d].claim in w.issued {
      assert Runs.HeldBy(v, d, n.dispatches[d].claim);
    }
  }

  lemma EnqueueQuiet(db: Db, r: Request, cooldown: int, secret: nat, keyCurrent: bool)
    requires Schema(db)
    ensures var n := Enqueue(db, r, cooldown, secret, keyCurrent).0; Schema(n) && Quiet(db, n)
  {
    EnqueueAdds(db, r, cooldown, secret, keyCurrent);
    var res := Enqueue(db, r, cooldown, secret, keyCurrent).1;
    if res.Existing? {
      AddDispatchesExtends(db, res.id, r.sinks, r.createdAt);
    } else if res.Inserted? {
      AddDispatchesExtends(InsertEvent(db, r, Hmac(secret, r.key)), res.id, r.sinks, r.createdAt);
    }
  }

  lemma PruneQuiet(db: Db, ids: set<EventId>)
    requires Schema(db)
    ensures Schema(DeleteEvents(db, ids)) && Quiet(db, DeleteEvents(db, ids))
  {
    var n := DeleteEvents(db, ids);
    forall c, d | c in n.dispatches && d in n.dispatches && SameSlot(n.dispatches[c], n.dispatches[d]) ensures c == d {
      assert SameSlot(db.dispatches[c], db.dispatches[d]);
    }
  }

  lemma ResetQuiet(db: Db, now: Time)
    requires Schema(db)
    ensures Schema(AfterReset(db, now)) && Quiet(db, AfterReset(db, now))
  {
    ResetLeavesNothingPending(db, now);
  }

  lemma RenameQuiet(db: Db, trace: seq<Turn>, secret: nat, now: Time)
    requires Schema(db)
    ensures Schema(Replay(db, trace, secret, now)) && Quiet(db, Replay(db, trace, secret, now))
  {
    ReplayCarries(db, trace, secret, now);
    var n := Replay(db, trace, secret, now);
    forall d | d in n.dispatches && Active(n.dispatches[d].status) ensures SameWork(db.dispatches[d], n.dispatches[d]) {
      assert Active(db.dispatches[d].status);
    }
  }

  // ---- Claim, record and deliver ----

  /** Work after a claim was work before it, within its attempts. */
  lemma ClaimWithin(
    db: Db, picked: set<DispatchId>, worker: string, claim: string, now: Time, duration: int,
    max: int, d: DispatchId)
    requires picked <= ClaimableIds(DeadLetterExpired(db, now, max), now, max) && d in db.dispatches
    requires Active(db.dispatches[d].status) ==> db.dispatches[d].attempts < max
    ensures var row := Claim(db, picked, worker, claim, now, duration, max).dispatches[d];
      Active(row.status) ==> Active(db.dispatches[d].status) && row.attempts < max
  {
  }

  lemma ClaimWork(
    w: World, n: Db, worker: string, picked: set<DispatchId>, claim: string, now: Time,
    duration: int, max: int)
    requires Schema(w.db) && WorkAccounted(w, max) && n == Claim(w.db, picked, worker, claim, now, duration, max)
    requires picked <= ClaimableIds(DeadLetterExpired(w.db, now, max), now, max)
    ensures WorkAccounted(Runs.Leased(w, n, picked, claim), max)
  {
    Runs.ClaimHasEffect(w.db, picked, worker, claim, now, duration, max);
    var claimed := Runs.Bump(w.claimed, picked);
    forall d: DispatchId
      ensures d in n.dispatches && Active(n.dispatches[d].status) ==>
        Runs.At(claimed, d) == Runs.Charged(n.dispatches[d]) && n.dispatches[d].attempts < max
      ensures Runs.At(claimed, d) <= max && (d > n.lastDispatch ==> Runs.At(claimed, d) == 0)
    {
      Runs.BumpAt(w.claimed, picked, d);
      if d in w.db.dispatches { ClaimWithin(w.db, picked, worker, claim, now, duration, max, d); }
      assert d in picked ==> Active(n.dispatches[d].status);
    }
  }

  lemma RecordWork(
    w: World, d: DispatchId, worker: string, claim: string, status: DispatchStatus, now: Time,
    p: Policy, keyCurrent: bool)
    requires WorkAccounted(w, p.maxAttempts)
    ensures var n := Record(w.db, d, worker, claim, status, now, p, keyCurrent).0;
      WorkAccounted(Runs.Noted(w, n, d, claim), p.maxAttempts)
  {
    Runs.RecordHasEffect(w.db, d, worker, claim, status, now, p, keyCurrent);
  }

  lemma RecordSchema(
    db: Db, d: DispatchId, worker: string, claim: string, status: DispatchStatus, now: Time,
    p: Policy, keyCurrent: bool)
    requires Schema(db)
    ensures Schema(Record(db, d, worker, claim, status, now, p, keyCurrent).0)
  {
    SchemaFrame(db, Record(db, d, worker, claim, status, now, p, keyCurrent).0);
  }

  lemma DeliverKeeps(w: World, d: DispatchId, max: int)
    requires Inv(w, max) && Runs.At(w.inHand, d) > 0
    ensures Inv(Apply(w, Deliver(d)), max)
  {
    var v := Apply(w, Deliver(d));
    forall x: DispatchId ensures Runs.At(v.calls, x) + Runs.At(v.inHand, x) == Runs.At(v.claimed, x) {
      Runs.BumpAt(w.calls, {d}, x);
    }
    forall x: DispatchId, c: string | Runs.HeldBy(v, x, c) ensures Runs.HeldBy(w, x, c) {}
  }

  lemma ClaimKeepsCalls(w: World, t: AlertRuns.Step, p: Policy)
    requires Inv(w, p.maxAttempts) && t.DoClaim? && Enabled(w, Transact(t), p)
    ensures Inv(Apply(w, Transact(t)), p.maxAttempts)
  {
    var n := Claim(w.db, t.picked, t.worker, t.claim, t.now, t.duration, t.max);
    Runs.ClaimHasEffect(w.db, t.picked, t.worker, t.claim, t.now, t.duration, t.max);
    SchemaFrame(w.db, n);
    ClaimWork(w, n, t.worker, t.picked, t.claim, t.now, t.duration, t.max);
    Runs.ClaimCalls(w, n, t.picked, t.claim);
    Runs.ClaimCompletions(w, n, t.picked, t.claim);
  }

  lemma RecordKeepsCalls(w: World, t: AlertRuns.Step, p: Policy)
    requires Inv(w, p.maxAttempts) && t.DoRecord? && Enabled(w, Transact(t), p)
    ensures Inv(Apply(w, Transact(t)), p.maxAttempts)
  {
    var n := Record(w.db, t.dispatch, t.worker, t.claim, t.status, t.now, p, t.keyCurrent).0;
    RecordSchema(w.db, t.dispatch, t.worker, t.claim, t.status, t.now, p, t.keyCurrent);
    RecordWork(w, t.dispatch, t.worker, t.claim, t.status, t.now, p, t.keyCurrent);
    Runs.RecordHasEffect(w.db, t.dispatch, t.worker, t.claim, t.status, t.now, p, t.keyCurrent);
    Runs.RecordCompletions(w, n, t.dispatch, t.claim);
  }

  lemma QuietStep(w: World, t: AlertRuns.Step, p: Policy)
    requires Inv(w, p.maxAttempts) && !t.DoClaim? && !t.DoRecord? && Enabled(w, Transact(t), p)
    ensures Inv(Apply(w, Transact(t)), p.maxAttempts)
  {
    match t {
      case DoEnqueue(r, cooldown, secret, keyCurrent) => EnqueueQuiet(w.db, r, cooldown, secret, keyCurrent);
      case DoPrune(ids, _) => PruneQuiet(w.db, ids);
      case DoReset(now) => ResetQuiet(w.db, now);
      case DoRename(trace, secret, now) => RenameQuiet(w.db, trace, secret, now);
    }
    QuietKeeps(w, AlertRuns.Apply(w.db, t), p.maxAttempts);
  }

  lemma StepKeeps(w: World, s: Step, p: Policy)
    requires Inv(w, p.maxAttempts) && Enabled(w, s, p)
    ensures Inv(Apply(w, s), p.maxAttempts)
  {
    match s
    case Deliver(d) => DeliverKeeps(w, d, p.maxAttempts);
    case Transact(t) =>
      if t.DoClaim? {
        ClaimKeepsCalls(w, t, p);
      } else if t.DoRecord? {
        RecordKeepsCalls(w, t, p);
      } else {
        QuietStep(w, t, p);
      }
  }

  // ---- Runs ----

  ghost predicate Run(ws: seq<World>, steps: seq<Step>, p: Policy) {
    && |ws| == |steps| + 1 && ws[0] == Runs.START
    && forall i | 0 <= i < |steps| :: Enabled(ws[i], steps[i], p) && ws[i + 1] == Apply(ws[i], steps[i])
  }

  lemma {:induction false} RunKeeps(ws: seq<World>, steps: seq<Step>, p: Policy, i: nat)
    requires Run(ws, steps, p) && i < |ws|
    ensures Inv(ws[i], p.maxAttempts)
  {
    if i > 0 {
      RunKeeps(ws, steps, p, i - 1);
      StepKeeps(ws[i - 1], steps[i - 1], p);
    }
  }

  /** Over every run of all these transactions, also with resets and with renames that are not safe: no
      sink is called more than maxAttempts times for a dispatch, and for work still to do the claims are
      its attempts plus the one in flight. */
  lemma SinkCallsBounded(ws: seq<World>, steps: seq<Step>, p: Policy, i: nat, d: DispatchId)
    requires Run(ws, steps, p) && i < |ws|
    ensures Runs.At(ws[i].calls, d) <= Runs.At(ws[i].claimed, d) <= p.maxAttempts
    ensures d in ws[i].db.dispatches && Active(ws[i].db.dispatches[d].status) ==>
      && Runs.At(ws[i].claimed, d) == Runs.Charged(ws[i].db.dispatches[d])
      && ws[i].db.dispatches[d].attempts < p.maxAttempts
  {
    RunKeeps(ws, steps, p, i);
  }

  /** And one claim still completes one dispatch at most once. */
  lemma ClaimCompletesOnce(ws: seq<World>, steps: seq<Step>, p: Policy, i: nat, d: DispatchId, claim: string)
    requires Run(ws, steps, p) && i < |ws|
    ensures Runs.Completions(ws[i].completions, d, claim) <= 1
  {
    RunKeeps(ws, steps, p, i);
  }
}
