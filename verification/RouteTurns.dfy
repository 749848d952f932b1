/** The rename of alert events along deferred edges as a sequence of turns, one event each: what a turn
    does to the tables, when it keeps them coherent, and what passes of turns come to without collisions. */
module RouteTurns {
  import opened AlertRows
  import opened RouteMoves
  import opened RouteCollision

  /** Pending events and undelivered work in step, and pending hashes unique. */
  ghost predicate Coherent(db: Db) {
    Schema(db) && PendingIffActive(db) && UniquePending(db.events)
  }

  /** One event's turn in the rename loop along an edge, with the status and key read before the loop. */
  datatype Turn = Turn(event: EventId, pending: bool, key: string, edge: Edge)

  function NewHash(t: Turn, secret: nat): Hash {
    Hmac(secret, RenameKey(t.key, t.edge))
  }

  /** Another pending event already has the hash that e is to get. */
  predicate Holder(evs: Events, e: EventId, h: Hash, f: EventId) {
    f in evs && f != e && evs[f].status.EventPending? && evs[f].hash == h
  }

  predicate Held(evs: Events, e: EventId, h: Hash) {
    exists f | f in evs :: Holder(evs, e, h, f)
  }

  /** UPDATE alert_events SET target, dedupe_key, dedupe_hash */
  function Renamed(db: Db, t: Turn, secret: nat): Db
    requires t.event in db.events
  {
    var ev := db.events[t.event];
    var subject := ev.subject.(target := t.edge.dest);
    db.(events := db.events[t.event :=
      ev.(subject := subject, key := RenameKey(t.key, t.edge), hash := NewHash(t, secret))])
  }

  /** The turn over the pending holder f of the new hash; true means it is postponed. */
  function TurnOver(db: Db, t: Turn, f: EventId, secret: nat, now: Time): (Db, bool)
    requires t.event in db.events && f in db.events
  {
    var (merged, postponed) := Merge(db, t.event, f, now);
    (if postponed then merged else Renamed(merged, t, secret), postponed)
  }

  /** The turn of an event that was read as pending merges a holder of its new hash first. */
  ghost function RunTurn(db: Db, t: Turn, secret: nat, now: Time): (Db, bool) {
    if t.event !in db.events then (db, false)
    else if t.pending && Held(db.events, t.event, NewHash(t, secret)) then
      var f :| f in db.events && Holder(db.events, t.event, NewHash(t, secret), f);
      TurnOver(db, t, f, secret, now)
    else (Renamed(db, t, secret), false)
  }

  ghost function Replay(db: Db, trace: seq<Turn>, secret: nat, now: Time): Db {
    if trace == [] then db
    else RunTurn(Replay(db, trace[..|trace| - 1], secret, now), trace[|trace| - 1], secret, now).0
  }

  ghost predicate Postponed(db: Db, trace: seq<Turn>, i: nat, secret: nat, now: Time)
    requires i < |trace|
  {
    RunTurn(Replay(db, trace[..i], secret, now), trace[i], secret, now).1
  }

  // ---- What every turn keeps ----

  /** A waiting row that was given up is redundant: its sink is already closed by a row of another event. */
  ghost predicate Redundant(a: Rows, b: Rows, d: DispatchId)
    requires d in a && d in b
  {
    b[d].status.Reset? && exists k | k in a :: Closed(a[k].status) && a[k].sink == a[d].sink && a[k].event != b[d].event
  }

  /** Rows survive: a claim keeps everything but its event, a waiting row keeps that too or is redundant,
      and a finished row is untouched. */
  ghost predicate Carried(a: Rows, b: Rows) {
    && a.Keys == b.Keys
    && forall d | d in a ::
      && (a[d].status.InFlight? ==> b[d] == a[d].(event := b[d].event))
      && (!Active(a[d].status) ==> b[d] == a[d])
      && (a[d].status.Pending? ==> b[d] == a[d].(event := b[d].event) || Redundant(a, b, d))
  }

  lemma CarriedRefl(a: Rows)
    ensures Carried(a, a)
  {
  }

  lemma CarriedTransitive(a: Rows, b: Rows, c: Rows)
    requires Carried(a, b) && Carried(b, c)
    ensures Carried(a, c)
  {
    forall d | d in a && a[d].status.Pending? && c[d] != a[d].(event := c[d].event) ensures Redundant(a, c, d) {
      if b[d] == a[d].(event := b[d].event) {
        var k :| k in b && Closed(b[k].status) && b[k].sink == b[d].sink && b[k].event != c[d].event;
        assert a[k] == b[k];
      } else {
        var k :| k in a && Closed(a[k].status) && a[k].sink == a[d].sink && a[k].event != b[d].event;
        assert c[d] == b[d];
      }
    }
  }

  lemma MergeCarries(rows: Rows, keeper: EventId, dup: EventId, now: Time)
    requires keeper != dup
    ensures Carried(rows, MergedRows(rows, keeper, dup, now))
  {
    var n := MergedRows(rows, keeper, dup, now);
    forall d | d in rows && rows[d].status.InFlight? ensures n[d] == rows[d].(event := n[d].event) {
      ClaimsVerbatim(rows, keeper, dup, now, d);
    }
    forall d | d in rows && rows[d].status.Pending? && n[d] != rows[d].(event := n[d].event)
      ensures Redundant(rows, n, d)
    {
      assert !Blocks(rows, keeper, d);
      var k :| k in rows && rows[k].event == keeper && rows[k].sink == rows[d].sink && Closed(rows[k].status);
    }
  }

  lemma TurnOverCarries(db: Db, t: Turn, f: EventId, secret: nat, now: Time)
    requires Schema(db) && t.event in db.events && f in db.events && f != t.event
    ensures var n := TurnOver(db, t, f, secret, now).0;
      Schema(n) && Carried(db.dispatches, n.dispatches) && n.lastDispatch == db.lastDispatch
  {
    MergeKeepsSchema(db, t.event, f, now);
    MergeCarries(db.dispatches, t.event, f, now);
  }

  /** Rows are carried through any turn, safe or not, whoever holds which hash. */
  lemma TurnCarries(db: Db, t: Turn, secret: nat, now: Time)
    requires Schema(db)
    ensures var n := RunTurn(db, t, secret, now).0;
      Schema(n) && Carried(db.dispatches, n.dispatches) && n.lastDispatch == db.lastDispatch
  {
    if t.event in db.events && t.pending && Held(db.events, t.event, NewHash(t, secret)) {
      var f :| f in db.events && Holder(db.events, t.event, NewHash(t, secret), f)
        && RunTurn(db, t, secret, now) == TurnOver(db, t, f, secret, now);
      TurnOverCarries(db, t, f, secret, now);
    } else {
      CarriedRefl(db.dispatches);
    }
  }

  lemma {:induction false} ReplayCarries(db: Db, trace: seq<Turn>, secret: nat, now: Time)
    requires Schema(db)
    ensures var n := Replay(db, trace, secret, now);
      Schema(n) && Carried(db.dispatches, n.dispatches) && n.lastDispatch == db.lastDispatch
  {
    if trace == [] {
      CarriedRefl(db.dispatches);
    } else {
      var (init, t) := (trace[..|trace| - 1], trace[|trace| - 1]);
      ReplayCarries(db, init, secret, now);
      var mid := Replay(db, init, secret, now);
      TurnCarries(mid, t, secret, now);
      CarriedTransitive(db.dispatches, mid.dispatches, RunTurn(mid, t, secret, now).0.dispatches);
    }
  }

  /** Constraints of the schema. */
  ghost predicate Lawful(db: Db) {
    Schema(db) && UniquePending(db.events)
  }

  /** Events only ever stop being pending. */
  ghost predicate OnlyEnd(a: Events, b: Events) {
    a.Keys == b.Keys && forall e | e in a && b[e].status.EventPending? :: a[e].status.EventPending?
  }

  /** The turn's event exists, and is not pending unless it was read so. */
  predicate MayRun(db: Db, t: Turn) {
    t.event in db.events && (t.pending || !db.events[t.event].status.EventPending?)
  }

  ghost predicate Kept(db: Db, n: Db) {
    && Lawful(n) && OnlyEnd(db.events, n.events) && Carried(db.dispatches, n.dispatches)
    && n.lastEvent == db.lastEvent && n.lastDispatch == db.lastDispatch
  }

  lemma RenamedKeeps(db: Db, t: Turn, secret: nat)
    requires Lawful(db) && t.event in db.events
    requires db.events[t.event].status.EventPending? ==> !Held(db.events, t.event, NewHash(t, secret))
    ensures Kept(db, Renamed(db, t, secret))
  {
    var n := Renamed(db, t, secret).events;
    forall f, g | f in n && g in n && Rivals(n[f], n[g]) ensures f == g {
      if f != t.event && g != t.event {
        assert Rivals(db.events[f], db.events[g]);
      } else if f != g {
        assert Holder(db.events, t.event, NewHash(t, secret), if f == t.event then g else f);
      }
    }
    CarriedRefl(db.dispatches);
  }

  lemma TurnOverKeeps(db: Db, t: Turn, f: EventId, secret: nat, now: Time)
    requires Lawful(db) && t.event in db.events && f in db.events && Holder(db.events, t.event, NewHash(t, secret), f)
    ensures Kept(db, TurnOver(db, t, f, secret, now).0)
  {
    var (merged, postponed) := Merge(db, t.event, f, now);
    MergeKeepsSchema(db, t.event, f, now);
    MergeCarries(db.dispatches, t.event, f, now);
    if !postponed {
      RetargetStaysUnique(db, t.event, f, now, Renamed(merged, t, secret).events[t.event]);
    }
  }

  lemma TurnKeeps(db: Db, t: Turn, secret: nat, now: Time)
    requires Lawful(db) && MayRun(db, t)
    ensures Kept(db, RunTurn(db, t, secret, now).0)
  {
    if t.pending && Held(db.events, t.event, NewHash(t, secret)) {
      var f :| f in db.events && Holder(db.events, t.event, NewHash(t, secret), f)
        && RunTurn(db, t, secret, now) == TurnOver(db, t, f, secret, now);
      TurnOverKeeps(db, t, f, secret, now);
    } else {
      RenamedKeeps(db, t, secret);
    }
  }

  /** Unique pending hashes leave a turn no choice of holder. */
  lemma TurnOverHolder(db: Db, t: Turn, f: EventId, secret: nat, now: Time)
    requires Lawful(db) && t.event in db.events && t.pending && f in db.events
    requires Holder(db.events, t.event, NewHash(t, secret), f)
    ensures RunTurn(db, t, secret, now) == TurnOver(db, t, f, secret, now)
  {
    forall g | g in db.events && Holder(db.events, t.event, NewHash(t, secret), g) ensures g == f {
      assert Rivals(db.events[f], db.events[g]);
    }
  }

  ghost predicate MayRunAt(db: Db, trace: seq<Turn>, i: nat, secret: nat, now: Time)
    requires i < |trace|
  {
    MayRun(Replay(db, trace[..i], secret, now), trace[i])
  }

  /** Every turn of the trace may run when it comes. */
  ghost predicate Honest(db: Db, trace: seq<Turn>, secret: nat, now: Time) {
    forall i: nat {:trigger MayRunAt(db, trace, i, secret, now)} | i < |trace| :: MayRunAt(db, trace, i, secret, now)
  }

  lemma ReplaySnoc(db: Db, trace: seq<Turn>, t: Turn, secret: nat, now: Time)
    ensures Replay(db, trace + [t], secret, now) == RunTurn(Replay(db, trace, secret, now), t, secret, now).0
    ensures Honest(db, trace + [t], secret, now) <==>
      Honest(db, trace, secret, now) && MayRun(Replay(db, trace, secret, now), t)
  {
    var longer := trace + [t];
    assert longer[..|trace|] == trace;
    assert MayRunAt(db, longer, |trace|, secret, now) <==> MayRun(Replay(db, trace, secret, now), t);
    forall i: nat | i < |trace| ensures MayRunAt(db, longer, i, secret, now) <==> MayRunAt(db, trace, i, secret, now) {
      assert longer[..i] == trace[..i];
    }
  }

  lemma HonestPrefix(db: Db, trace: seq<Turn>, i: nat, secret: nat, now: Time)
    requires i <= |trace| && Honest(db, trace, secret, now)
    ensures Honest(db, trace[..i], secret, now)
  {
    forall k: nat | k < i ensures MayRunAt(db, trace[..i], k, secret, now) {
      assert trace[..i][..k] == trace[..k] && MayRunAt(db, trace, k, secret, now);
    }
  }

  lemma {:induction false} ReplayAppend(db: Db, a: seq<Turn>, b: seq<Turn>, secret: nat, now: Time)
    ensures Replay(db, a + b, secret, now) == Replay(Replay(db, a, secret, now), b, secret, now)
    ensures Honest(db, a + b, secret, now) <==>
      Honest(db, a, secret, now) && Honest(Replay(db, a, secret, now), b, secret, now)
  {
    if b == [] {
      assert a + b == a;
    } else {
      var (init, t) := (b[..|b| - 1], b[|b| - 1]);
      assert b == init + [t] && a + b == (a + init) + [t];
      ReplayAppend(db, a, init, secret, now);
      ReplaySnoc(db, a + init, t, secret, now);
      ReplaySnoc(Replay(db, a, secret, now), init, t, secret, now);
    }
  }

  /** The turn meets no other pending event under its new hash. */
  predicate Free(db: Db, t: Turn, secret: nat) {
    t.event in db.events && (t.pending ==> !Held(db.events, t.event, NewHash(t, secret)))
  }

  ghost predicate FreeAt(db: Db, trace: seq<Turn>, i: nat, secret: nat, now: Time)
    requires i < |trace|
  {
    Free(Replay(db, trace[..i], secret, now), trace[i], secret)
  }

  /** No turn of the trace meets a collision when it comes. */
  ghost predicate NeverHeld(db: Db, trace: seq<Turn>, secret: nat, now: Time) {
    forall i: nat {:trigger FreeAt(db, trace, i, secret, now)} | i < |trace| :: FreeAt(db, trace, i, secret, now)
  }

  lemma NeverHeldSnoc(db: Db, trace: seq<Turn>, t: Turn, secret: nat, now: Time)
    ensures NeverHeld(db, trace + [t], secret, now) <==>
      NeverHeld(db, trace, secret, now) && Free(Replay(db, trace, secret, now), t, secret)
  {
    var longer := trace + [t];
    assert longer[..|trace|] == trace;
    assert FreeAt(db, longer, |trace|, secret, now) <==> Free(Replay(db, trace, secret, now), t, secret);
    forall i: nat | i < |trace| ensures FreeAt(db, longer, i, secret, now) <==> FreeAt(db, trace, i, secret, now) {
      assert longer[..i] == trace[..i];
    }
  }

  lemma {:induction false} NeverHeldAppend(db: Db, a: seq<Turn>, b: seq<Turn>, secret: nat, now: Time)
    ensures NeverHeld(db, a + b, secret, now) <==>
      NeverHeld(db, a, secret, now) && NeverHeld(Replay(db, a, secret, now), b, secret, now)
  {
    if b == [] {
      assert a + b == a;
    } else {
      var (init, t) := (b[..|b| - 1], b[|b| - 1]);
      assert b == init + [t] && a + b == (a + init) + [t];
      NeverHeldAppend(db, a, init, secret, now);
      NeverHeldSnoc(db, a + init, t, secret, now);
      NeverHeldSnoc(Replay(db, a, secret, now), init, t, secret, now);
      ReplayAppend(db, a, init, secret, now);
    }
  }

  lemma KeptTransitive(a: Db, b: Db, c: Db)
    requires Kept(a, b) && Kept(b, c)
    ensures Kept(a, c)
  {
    CarriedTransitive(a.dispatches, b.dispatches, c.dispatches);
  }

  /** Any honest run of turns keeps the constraints, reopens no event, and carries every row. */
  lemma {:induction false} ReplayKeeps(db: Db, trace: seq<Turn>, secret: nat, now: Time)
    requires Lawful(db) && Honest(db, trace, secret, now)
    ensures Kept(db, Replay(db, trace, secret, now))
  {
    if trace == [] {
      CarriedRefl(db.dispatches);
    } else {
      var (init, t) := (trace[..|trace| - 1], trace[|trace| - 1]);
      assert trace == init + [t];
      ReplaySnoc(db, init, t, secret, now);
      ReplayKeeps(db, init, secret, now);
      TurnKeeps(Replay(db, init, secret, now), t, secret, now);
      KeptTransitive(db, Replay(db, init, secret, now), Replay(db, trace, secret, now));
    }
  }

  // ---- When the tables stay coherent ----

  /** A row of the holder that the merge would move to e. */
  predicate Moves(rows: Rows, e: EventId, f: EventId, d: DispatchId) {
    ActiveOf(rows, f, d) && Reached(rows, e, f, d) && !SinkTaken(rows, e, rows[d].sink)
  }

  /** An event read as pending that an earlier turn has merged away takes no row of another event. */
  predicate Safe(db: Db, t: Turn, secret: nat) {
    t.event in db.events && t.pending && !db.events[t.event].status.EventPending? ==>
      forall f, d | f in db.events && d in db.dispatches && Holder(db.events, t.event, NewHash(t, secret), f) ::
        !Moves(db.dispatches, t.event, f, d)
  }

  /** Active rows on an event that is not pending. */
  ghost predicate Stranded(db: Db) {
    exists e | e in db.events :: !db.events[e].status.EventPending? && HasActive(db.dispatches, e)
  }

  lemma RenamedCoherent(db: Db, t: Turn, secret: nat)
    requires Coherent(db) && MayRun(db, t)
    requires db.events[t.event].status.EventPending? ==> !Held(db.events, t.event, NewHash(t, secret))
    ensures Coherent(Renamed(db, t, secret))
  {
    RenamedKeeps(db, t, secret);
  }

  /** A turn over a holder, of an event still pending. */
  lemma LiveTurnCoherent(db: Db, t: Turn, f: EventId, secret: nat, now: Time)
    requires Coherent(db) && t.event in db.events && db.events[t.event].status.EventPending?
    requires f in db.events && Holder(db.events, t.event, NewHash(t, secret), f)
    ensures Coherent(TurnOver(db, t, f, secret, now).0)
  {
    MergeKeepsCoherence(db, t.event, f, now);
    TurnOverKeeps(db, t, f, secret, now);
  }

  /** A turn over a holder, of an event that is not pending any more: it has rows to do afterwards
      exactly if the merge moved some. */
  lemma StaleTurnWork(db: Db, t: Turn, f: EventId, secret: nat, now: Time)
    requires Coherent(db) && t.event in db.events && !db.events[t.event].status.EventPending?
    requires f in db.events && Holder(db.events, t.event, NewHash(t, secret), f)
    ensures HasActive(TurnOver(db, t, f, secret, now).0.dispatches, t.event) <==>
      exists d | d in db.dispatches :: Moves(db.dispatches, t.event, f, d)
  {
    var (rows, n) := (db.dispatches, MergedRows(db.dispatches, t.event, f, now));
    if d :| d in rows && Moves(rows, t.event, f, d) {
      assert n[d] == rows[d].(event := t.event);
    }
    if HasActive(n, t.event) {
      var d :| d in n && n[d].event == t.event && Active(n[d].status);
      assert rows[d].event != t.event by { assert !HasActive(rows, t.event); }
      assert Moves(rows, t.event, f, d);
    }
  }

  /** Everybody else is as coherent as before. */
  lemma StaleTurnOthers(db: Db, t: Turn, f: EventId, secret: nat, now: Time, e: EventId)
    requires Coherent(db) && t.event in db.events && !db.events[t.event].status.EventPending?
    requires f in db.events && Holder(db.events, t.event, NewHash(t, secret), f) && e in db.events && e != t.event
    ensures var n := TurnOver(db, t, f, secret, now).0;
      e in n.events && (n.events[e].status.EventPending? <==> HasActive(n.dispatches, e))
  {
    DuplicateDrained(db.dispatches, t.event, f, now);
    if e != f { OthersKeepActivity(db.dispatches, t.event, f, now, e); }
  }

  lemma StaleTurnCoherent(db: Db, t: Turn, f: EventId, secret: nat, now: Time)
    requires Coherent(db) && t.event in db.events && !db.events[t.event].status.EventPending?
    requires f in db.events && Holder(db.events, t.event, NewHash(t, secret), f)
    ensures var n := TurnOver(db, t, f, secret, now).0;
      var moved := exists d | d in db.dispatches :: Moves(db.dispatches, t.event, f, d);
      (Coherent(n) <==> !moved) && (moved ==> Stranded(n))
  {
    var n := TurnOver(db, t, f, secret, now).0;
    TurnOverKeeps(db, t, f, secret, now);
    StaleTurnWork(db, t, f, secret, now);
    forall e | e in n.events && e != t.event ensures n.events[e].status.EventPending? <==> HasActive(n.dispatches, e) {
      StaleTurnOthers(db, t, f, secret, now, e);
    }
    assert !n.events[t.event].status.EventPending?;
  }

  /** One turn keeps the tables coherent exactly when it is safe; otherwise it strands work. */
  lemma TurnCoherentExactly(db: Db, t: Turn, secret: nat, now: Time)
    requires Coherent(db) && MayRun(db, t)
    ensures Coherent(RunTurn(db, t, secret, now).0) <==> Safe(db, t, secret)
    ensures !Safe(db, t, secret) ==> Stranded(RunTurn(db, t, secret, now).0)
  {
    if t.pending && Held(db.events, t.event, NewHash(t, secret)) {
      var f :| f in db.events && Holder(db.events, t.event, NewHash(t, secret), f);
      TurnOverHolder(db, t, f, secret, now);
      forall g | g in db.events && Holder(db.events, t.event, NewHash(t, secret), g) ensures g == f {
        assert Rivals(db.events[f], db.events[g]);
      }
      if db.events[t.event].status.EventPending? {
        LiveTurnCoherent(db, t, f, secret, now);
      } else {
        StaleTurnCoherent(db, t, f, secret, now);
      }
    } else {
      RenamedCoherent(db, t, secret);
    }
  }

  /** No later turn repairs stranded work: only rows of pending events are moved or reset. */
  lemma StrandedStays(db: Db, t: Turn, secret: nat, now: Time)
    requires Lawful(db) && MayRun(db, t) && Stranded(db)
    ensures Stranded(RunTurn(db, t, secret, now).0)
  {
    var n := RunTurn(db, t, secret, now).0;
    var e :| e in db.events && !db.events[e].status.EventPending? && HasActive(db.dispatches, e);
    var d :| d in db.dispatches && db.dispatches[d].event == e && Active(db.dispatches[d].status);
    TurnKeeps(db, t, secret, now);
    assert n.dispatches[d] == db.dispatches[d];
    assert e in n.events && HasActive(n.dispatches, e);
  }

  ghost predicate SafeAt(db: Db, trace: seq<Turn>, i: nat, secret: nat, now: Time)
    requires i < |trace|
  {
    Safe(Replay(db, trace[..i], secret, now), trace[i], secret)
  }

  /** Every turn of the trace is safe when it comes. */
  ghost predicate AllSafe(db: Db, trace: seq<Turn>, secret: nat, now: Time) {
    forall i: nat {:trigger SafeAt(db, trace, i, secret, now)} | i < |trace| :: SafeAt(db, trace, i, secret, now)
  }

  lemma AllSafeSnoc(db: Db, trace: seq<Turn>, t: Turn, secret: nat, now: Time)
    ensures AllSafe(db, trace + [t], secret, now) <==>
      AllSafe(db, trace, secret, now) && Safe(Replay(db, trace, secret, now), t, secret)
  {
    var longer := trace + [t];
    assert longer[..|trace|] == trace;
    assert SafeAt(db, longer, |trace|, secret, now) <==> Safe(Replay(db, trace, secret, now), t, secret);
    forall i: nat | i < |trace| ensures SafeAt(db, longer, i, secret, now) <==> SafeAt(db, trace, i, secret, now) {
      assert longer[..i] == trace[..i];
    }
  }

  /** From coherent tables, any run of turns ends coherent if and only if each of them was safe. */
  lemma {:induction false} ReplayCoherentExactly(db: Db, trace: seq<Turn>, secret: nat, now: Time)
    requires Coherent(db) && Honest(db, trace, secret, now)
    ensures Coherent(Replay(db, trace, secret, now)) <==> AllSafe(db, trace, secret, now)
    ensures !AllSafe(db, trace, secret, now) ==> Stranded(Replay(db, trace, secret, now))
  {
    if trace != [] {
      var (init, t) := (trace[..|trace| - 1], trace[|trace| - 1]);
      assert trace == init + [t];
      ReplaySnoc(db, init, t, secret, now);
      AllSafeSnoc(db, init, t, secret, now);
      ReplayCoherentExactly(db, init, secret, now);
      ReplayKeeps(db, init, secret, now);
      if AllSafe(db, init, secret, now) {
        TurnCoherentExactly(Replay(db, init, secret, now), t, secret, now);
      } else {
        StrandedStays(Replay(db, init, secret, now), t, secret, now);
      }
    }
  }

  // ---- The turns along one edge ----

  /** The turn of e along the edge, as the loop reads it. */
  function TurnRead(evs: Events, e: EventId, edge: Edge): Turn
    requires e in evs
  {
    Turn(e, evs[e].status.EventPending?, evs[e].key, edge)
  }

  /** Every mutable event at the edge's source has one turn, in the order the rows are read. */
  ghost predicate TraceOf(evs: Events, edge: Edge, trace: seq<Turn>) {
    && (forall i | 0 <= i < |trace| ::
      trace[i].event in evs && AtSource(evs[trace[i].event], edge) && trace[i] == TurnRead(evs, trace[i].event, edge))
    && (forall i, j | 0 <= i < j < |trace| :: trace[i].event != trace[j].event)
    && forall e | e in evs && AtSource(evs[e], edge) :: exists i :: 0 <= i < |trace| && trace[i].event == e
  }

  /** No event about to be renamed still holds the hash another one is about to get. */
  ghost predicate Untangled(evs: Events, edge: Edge, secret: nat) {
    forall e, f | e in evs && f in evs && e != f && AtSource(evs[e], edge) && AtSource(evs[f], edge)
      && evs[e].status.EventPending? && evs[f].status.EventPending? ::
      Retargeted(evs[e], edge, secret).hash != evs[f].hash
  }

  /** A turn changes its own event and the holder of its new hash, and no other. */
  lemma TurnTouches(db: Db, t: Turn, secret: nat, now: Time, g: EventId)
    requires t.event in db.events && g in db.events && g != t.event
    requires t.pending ==> !Holder(db.events, t.event, NewHash(t, secret), g)
    ensures var n := RunTurn(db, t, secret, now).0; g in n.events && n.events[g] == db.events[g]
  {
  }

  /** Events of an untangled edge are still as they were read when their turn comes. */
  lemma {:induction false} UntangledWaits(db: Db, edge: Edge, trace: seq<Turn>, secret: nat, now: Time, i: nat, j: nat)
    requires Lawful(db) && TraceOf(db.events, edge, trace) && Untangled(db.events, edge, secret) && i <= j < |trace|
    requires Honest(db, trace[..i], secret, now)
    ensures var (n, e) := (Replay(db, trace[..i], secret, now), trace[j].event);
      e in n.events && n.events[e] == db.events[e]
  {
    if i > 0 {
      var (t, e) := (trace[i - 1], trace[j].event);
      assert trace[..i] == trace[..i - 1] + [t];
      ReplaySnoc(db, trace[..i - 1], t, secret, now);
      UntangledWaits(db, edge, trace, secret, now, i - 1, j);
      if t.pending { assert Retargeted(db.events[t.event], edge, secret).hash == NewHash(t, secret); }
      TurnTouches(Replay(db, trace[..i - 1], secret, now), t, secret, now, e);
    }
  }

  /** Along an untangled edge every turn is safe, whatever the order of the rows. */
  lemma UntangledIsSafe(db: Db, edge: Edge, trace: seq<Turn>, secret: nat, now: Time)
    requires Lawful(db) && TraceOf(db.events, edge, trace) && Untangled(db.events, edge, secret)
    requires Honest(db, trace, secret, now)
    ensures AllSafe(db, trace, secret, now)
  {
    forall i: nat | i < |trace| ensures SafeAt(db, trace, i, secret, now) {
      HonestPrefix(db, trace, i, secret, now);
      UntangledWaits(db, edge, trace, secret, now, i, i);
    }
  }
}
