/** What a rename promises in terms of the columns alone: what a turn, a merge and a whole edge do to
    targets, keys, hashes, statuses and dispatch rows. */
module RouteLaws {
  import opened AlertRows
  import opened RouteCollision
  import opened RouteKeys
  import opened RouteMoves
  import opened RoutePasses
  import opened RouteTurns

  // ---- One merge ----

  /** d is unfinished work of e. */
  predicate Working(rows: Rows, e: EventId, d: DispatchId) {
    d in rows && rows[d].event == e && (rows[d].status == Pending || rows[d].status == InFlight)
  }

  predicate HasSlot(rows: Rows, e: EventId, sink: string) {
    exists k | k in rows :: rows[k].event == e && rows[k].sink == sink
  }

  predicate Served(rows: Rows, e: EventId, sink: string) {
    exists k | k in rows ::
      rows[k].event == e && rows[k].sink == sink && (rows[k].status == Delivered || rows[k].status == Skipped)
  }

  /** d cannot join e: its sink has a row there, and d is claimed or that row is not delivered or skipped. */
  predicate Clashes(rows: Rows, e: EventId, d: DispatchId)
    requires d in rows
  {
    HasSlot(rows, e, rows[d].sink) && (rows[d].status == InFlight || !Served(rows, e, rows[d].sink))
  }

  /** What becomes of work that joins e: it moves there, or is given up where e has served its sink. */
  function Joined(rows: Rows, e: EventId, d: DispatchId, now: Time): Dispatch
    requires d in rows
  {
    var row := rows[d];
    if !HasSlot(rows, e, row.sink) then row.(event := e)
    else Dispatch(row.event, row.sink, Reset, "", "", row.attempts, 0, 0, row.deliveredAt, now)
  }

  /** The merge gets to d: no claim of dup clashes, and no row up to d does. */
  predicate Joins(rows: Rows, keeper: EventId, dup: EventId, d: DispatchId) {
    && Working(rows, dup, d)
    && (forall b | b in rows && Working(rows, dup, b) && rows[b].status == InFlight :: !Clashes(rows, keeper, b))
    && (forall b | b in rows && Working(rows, dup, b) && b <= d :: !Clashes(rows, keeper, b))
  }

  /** A merge of dup into keeper is complete if no row of dup clashes; it joins the rows it gets to. */
  ghost predicate MergedAs(rows: Rows, n: Rows, keeper: EventId, dup: EventId, now: Time, postponed: bool) {
    && n.Keys == rows.Keys
    && (postponed <==> exists d | d in rows :: Working(rows, dup, d) && Clashes(rows, keeper, d))
    && (forall d | d in rows ::
      n[d] == if Joins(rows, keeper, dup, d) then Joined(rows, keeper, d, now) else rows[d])
  }

  lemma ClashIsBlock(rows: Rows, keeper: EventId, dup: EventId, d: DispatchId)
    requires d in rows
    ensures Clashes(rows, keeper, d) <==> Blocks(rows, keeper, d)
    ensures Working(rows, dup, d) <==> ActiveOf(rows, dup, d)
    ensures HasSlot(rows, keeper, rows[d].sink) <==> SinkTaken(rows, keeper, rows[d].sink)
  {
    assert SinkClosed(rows, keeper, rows[d].sink) <==> Served(rows, keeper, rows[d].sink);
    assert SinkTaken(rows, keeper, rows[d].sink) <==> HasSlot(rows, keeper, rows[d].sink);
  }

  lemma JoinsIsReached(rows: Rows, keeper: EventId, dup: EventId, d: DispatchId)
    requires d in rows
    ensures Joins(rows, keeper, dup, d) <==> ActiveOf(rows, dup, d) && Reached(rows, keeper, dup, d)
  {
    forall b | b in rows
      ensures Clashes(rows, keeper, b) <==> Blocks(rows, keeper, b)
      ensures Working(rows, dup, b) <==> ActiveOf(rows, dup, b)
      ensures HasSlot(rows, keeper, rows[b].sink) <==> SinkTaken(rows, keeper, rows[b].sink)
    {
      ClashIsBlock(rows, keeper, dup, b);
    }
  }

  lemma MergesAs(rows: Rows, keeper: EventId, dup: EventId, now: Time)
    ensures MergedAs(rows, MergedRows(rows, keeper, dup, now), keeper, dup, now, Deferred(rows, keeper, dup))
  {
    forall d | d in rows
      ensures MergedRow(rows, keeper, dup, d, now) ==
        if Joins(rows, keeper, dup, d) then Joined(rows, keeper, d, now) else rows[d]
      ensures Working(rows, dup, d) && Clashes(rows, keeper, d) <==> ActiveOf(rows, dup, d) && Blocks(rows, keeper, d)
    {
      ClashIsBlock(rows, keeper, dup, d);
      JoinsIsReached(rows, keeper, dup, d);
    }
  }

  // ---- One turn ----

  /** The event under its new target, key and hash. */
  function Titled(ev: Event, key: string, edge: Edge, secret: nat): Event {
    Event(ev.subject.(target := edge.dest), key, Hmac(secret, key), ev.createdAt, ev.status)
  }

  /** A pending event other than e with the hash of this key. */
  predicate Rival(evs: Events, e: EventId, key: string, secret: nat, f: EventId) {
    f in evs && f != e && evs[f].status == EventPending && evs[f].hash == Hmac(secret, key)
  }

  /** A turn that meets no rival of the new key renames its event and leaves the rest. */
  ghost predicate TurnedAlone(db: Db, t: Turn, key: string, n: Db, postponed: bool, secret: nat)
    requires t.event in db.events
  {
    && !postponed
    && n == db.(events := db.events[t.event := Titled(db.events[t.event], key, t.edge, secret)])
  }

  /** A turn over the rival f merges f into its event. It is postponed if that clashed; otherwise f is reset
      and the event renamed. */
  ghost predicate TurnedOver(db: Db, t: Turn, key: string, f: EventId, n: Db, postponed: bool, secret: nat, now: Time)
    requires t.event in db.events && f in db.events
  {
    && MergedAs(db.dispatches, n.dispatches, t.event, f, now, postponed)
    && n == db.(
      dispatches := n.dispatches,
      events := if postponed then db.events
        else db.events[f := db.events[f].(status := EventReset)][
          t.event := Titled(db.events[t.event], key, t.edge, secret)])
  }

  ghost predicate Turned(db: Db, t: Turn, n: Db, postponed: bool, secret: nat, now: Time)
    requires t.event in db.events
  {
    exists key ::
      && Rekeyed(t.key, key, t.edge)
      && (forall f | t.pending && Rival(db.events, t.event, key, secret, f) ::
        TurnedOver(db, t, key, f, n, postponed, secret, now))
      && (!t.pending || (forall f :: !Rival(db.events, t.event, key, secret, f)) ==>
        TurnedAlone(db, t, key, n, postponed, secret))
  }

  lemma OneRival(evs: Events, e: EventId, key: string, secret: nat, f: EventId, g: EventId)
    requires UniquePending(evs) && Rival(evs, e, key, secret, f) && Rival(evs, e, key, secret, g)
    ensures f == g
  {
    assert Rivals(evs[f], evs[g]);
  }

  lemma TurnsOver(db: Db, t: Turn, f: EventId, secret: nat, now: Time)
    requires t.event in db.events && f in db.events && f != t.event
    ensures var (n, postponed) := TurnOver(db, t, f, secret, now);
      TurnedOver(db, t, RenameKey(t.key, t.edge), f, n, postponed, secret, now)
  {
    MergesAs(db.dispatches, t.event, f, now);
  }

  /** That is what a turn does. */
  lemma TurnsAs(db: Db, t: Turn, secret: nat, now: Time)
    requires t.event in db.events && UniquePending(db.events)
    ensures var (n, postponed) := RunTurn(db, t, secret, now); Turned(db, t, n, postponed, secret, now)
  {
    var key := RenameKey(t.key, t.edge);
    RenamesKey(t.key, t.edge);
    forall f ensures Rival(db.events, t.event, key, secret, f) <==> Holder(db.events, t.event, NewHash(t, secret), f) {}
    if t.pending && Held(db.events, t.event, NewHash(t, secret)) {
      var f :| f in db.events && Holder(db.events, t.event, NewHash(t, secret), f)
        && RunTurn(db, t, secret, now) == TurnOver(db, t, f, secret, now);
      TurnsOver(db, t, f, secret, now);
      forall g | Rival(db.events, t.event, key, secret, g) ensures g == f {
        OneRival(db.events, t.event, key, secret, f, g);
      }
    }
  }

  // ---- One edge ----

  /** Everything about the event but its status. */
  predicate SameTitle(a: Event, b: Event) {
    b == a.(status := b.status)
  }

  ghost predicate Retitled(a: Event, b: Event, edge: Edge, secret: nat) {
    Rekeyed(a.key, b.key, edge) && b == Titled(a, b.key, edge, secret).(status := b.status)
  }

  lemma TurnTitles(db: Db, t: Turn, secret: nat, now: Time)
    requires t.event in db.events && t.key == db.events[t.event].key
    ensures var (n, postponed) := RunTurn(db, t, secret, now);
      && n.events.Keys == db.events.Keys
      && (forall e | e in db.events :: n.events[e].status in {db.events[e].status, EventReset})
      && (forall e | e in db.events && e != t.event :: SameTitle(db.events[e], n.events[e]))
      && (if postponed then SameTitle(db.events[t.event], n.events[t.event])
          else Retitled(db.events[t.event], n.events[t.event], t.edge, secret))
  {
    RenamesKey(t.key, t.edge);
  }

  /** After turns of the edge that were postponed or not: events that were not have the new target and the
      key and hash that belong to it, and all others have what they had; at most a status became reset. */
  ghost predicate Titles(evs: Events, n: Events, edge: Edge, trace: seq<Turn>, postponed: seq<bool>, secret: nat) {
    && n.Keys == evs.Keys && |postponed| <= |trace| && (forall k | 0 <= k < |trace| :: trace[k].event in evs)
    && (forall e | e in evs :: n[e].status in {evs[e].status, EventReset})
    && (forall k | 0 <= k < |postponed| && postponed[k] :: SameTitle(evs[trace[k].event], n[trace[k].event]))
    && (forall k | 0 <= k < |postponed| && !postponed[k] ::
      Retitled(evs[trace[k].event], n[trace[k].event], edge, secret))
    && (forall e | e in evs && (forall k | 0 <= k < |postponed| :: trace[k].event != e) :: SameTitle(evs[e], n[e]))
  }

  lemma TitlesSnoc(evs: Events, mid: Events, n: Events, edge: Edge, trace: seq<Turn>, flags: seq<bool>, last: bool,
        secret: nat)
    requires Titles(evs, mid, edge, trace, flags, secret) && |flags| < |trace|
    requires forall i, j | 0 <= i < j < |trace| :: trace[i].event != trace[j].event
    requires n.Keys == mid.Keys && forall e | e in mid :: n[e].status in {mid[e].status, EventReset}
    requires forall e | e in mid && e != trace[|flags|].event :: SameTitle(mid[e], n[e])
    requires var e := trace[|flags|].event;
      if last then SameTitle(mid[e], n[e]) else Retitled(mid[e], n[e], edge, secret)
    ensures Titles(evs, n, edge, trace, flags + [last], secret)
  {
    var x := trace[|flags|].event;
    assert SameTitle(evs[x], mid[x]);
    forall e | e in evs && forall k | 0 <= k < |flags + [last]| :: trace[k].event != e ensures SameTitle(evs[e], n[e]) {
      assert (flags + [last])[|flags|] == last && SameTitle(evs[e], mid[e]);
    }
  }

  /** Which of the first i turns are postponed. */
  ghost function Outcomes(db: Db, trace: seq<Turn>, i: nat, secret: nat, now: Time): (flags: seq<bool>)
    requires i <= |trace|
    ensures |flags| == i
  {
    if i == 0 then [] else Outcomes(db, trace, i - 1, secret, now) + [Postponed(db, trace, i - 1, secret, now)]
  }

  lemma {:induction false} OutcomesAt(db: Db, trace: seq<Turn>, i: nat, k: nat, secret: nat, now: Time)
    requires k < i <= |trace|
    ensures Outcomes(db, trace, i, secret, now)[k] == Postponed(db, trace, k, secret, now)
  {
    if k < i - 1 { OutcomesAt(db, trace, i - 1, k, secret, now); }
  }

  /** Turns of the edge for different events, with the keys they had. */
  ghost predicate Listed(evs: Events, edge: Edge, trace: seq<Turn>) {
    && (forall i | 0 <= i < |trace| :: trace[i].event in evs)
    && (forall i | 0 <= i < |trace| :: trace[i].edge == edge && trace[i].key == evs[trace[i].event].key)
    && (forall i, j | 0 <= i < j < |trace| :: trace[i].event != trace[j].event)
  }

  lemma TurnAddsTitle(evs: Events, mid: Db, edge: Edge, trace: seq<Turn>, flags: seq<bool>, secret: nat, now: Time)
    requires Titles(evs, mid.events, edge, trace, flags, secret) && |flags| < |trace|
    requires Listed(evs, edge, trace)
    ensures var (n, postponed) := RunTurn(mid, trace[|flags|], secret, now);
      Titles(evs, n.events, edge, trace, flags + [postponed], secret)
  {
    var t := trace[|flags|];
    assert SameTitle(evs[t.event], mid.events[t.event]);
    TurnTitles(mid, t, secret, now);
    var (n, postponed) := RunTurn(mid, t, secret, now);
    TitlesSnoc(evs, mid.events, n.events, edge, trace, flags, postponed, secret);
  }

  /** Where the first i turns of the edge lead. */
  ghost predicate EdgeAt(db: Db, edge: Edge, trace: seq<Turn>, i: nat, secret: nat, now: Time)
    requires i <= |trace|
  {
    var n := Replay(db, trace[..i], secret, now);
    Titles(db.events, n.events, edge, trace, Outcomes(db, trace, i, secret, now), secret)
  }

  lemma NoTurnYet(db: Db, edge: Edge, trace: seq<Turn>, secret: nat, now: Time)
    requires Listed(db.events, edge, trace)
    ensures EdgeAt(db, edge, trace, 0, secret, now)
  {
    assert trace[..0] == [];
  }

  lemma ReplayNext(db: Db, trace: seq<Turn>, i: nat, secret: nat, now: Time)
    requires i < |trace|
    ensures Replay(db, trace[..i + 1], secret, now) ==
      RunTurn(Replay(db, trace[..i], secret, now), trace[i], secret, now).0
  {
    assert trace[..i + 1] == trace[..i] + [trace[i]];
    ReplaySnoc(db, trace[..i], trace[i], secret, now);
  }

  lemma NextTurn(db: Db, edge: Edge, trace: seq<Turn>, i: nat, secret: nat, now: Time)
    requires Listed(db.events, edge, trace) && i < |trace| && EdgeAt(db, edge, trace, i, secret, now)
    ensures EdgeAt(db, edge, trace, i + 1, secret, now)
  {
    var (mid, flags) := (Replay(db, trace[..i], secret, now), Outcomes(db, trace, i, secret, now));
    ReplayNext(db, trace, i, secret, now);
    TurnAddsTitle(db.events, mid, edge, trace, flags, secret, now);
  }

  lemma {:induction false} EdgeRenames(db: Db, edge: Edge, trace: seq<Turn>, i: nat, secret: nat, now: Time)
    requires Listed(db.events, edge, trace) && i <= |trace|
    ensures EdgeAt(db, edge, trace, i, secret, now)
  {
    if i == 0 {
      NoTurnYet(db, edge, trace, secret, now);
    } else {
      EdgeRenames(db, edge, trace, i - 1, secret, now);
      NextTurn(db, edge, trace, i - 1, secret, now);
    }
  }

  /** A pending or failed event about the edge's old target. */
  predicate ToRename(ev: Event, edge: Edge) {
    && (ev.status == EventPending || ev.status == EventFailed)
    && ev.subject.service == edge.service && ev.subject.target == edge.source
  }

  /** The edge gives a turn to each event it is about, and to no other. */
  ghost predicate EachOnce(evs: Events, edge: Edge, trace: seq<Turn>) {
    && (forall e | e in evs && ToRename(evs[e], edge) :: exists i | 0 <= i < |trace| :: trace[i].event == e)
    && (forall i | 0 <= i < |trace| :: trace[i].event in evs && ToRename(evs[trace[i].event], edge))
    && Listed(evs, edge, trace)
    && (forall i | 0 <= i < |trace| :: trace[i].pending <==> evs[trace[i].event].status == EventPending)
  }

  /** What MigrateIdentity says about the columns. */
  lemma EdgeMeans(db: Db, edge: Edge, trace: seq<Turn>, secret: nat, now: Time)
    requires TraceOf(db.events, edge, trace)
    ensures EachOnce(db.events, edge, trace)
    ensures var flags := Outcomes(db, trace, |trace|, secret, now);
      && Titles(db.events, Replay(db, trace, secret, now).events, edge, trace, flags, secret)
      && forall k | 0 <= k < |trace| :: flags[k] <==> Postponed(db, trace, k, secret, now)
  {
    forall k | 0 <= k < |trace|
      ensures Outcomes(db, trace, |trace|, secret, now)[k] <==> Postponed(db, trace, k, secret, now)
    {
      OutcomesAt(db, trace, |trace|, k, secret, now);
    }
    assert Listed(db.events, edge, trace);
    EdgeRenames(db, edge, trace, |trace|, secret, now);
    assert trace[..|trace|] == trace;
    forall e | e in db.events ensures ToRename(db.events[e], edge) <==> AtSource(db.events[e], edge) {}
    forall e | e in db.events && ToRename(db.events[e], edge)
      ensures exists i | 0 <= i < |trace| :: trace[i].event == e
    {
      assert AtSource(db.events[e], edge);
    }
  }

  /** Two events that name the old target once in their keys, and differ in the rest, do not get one hash. */
  lemma TitlesStayApart(a: Event, b: Event, m: Event, n: Event, pre: string, post: string, post2: string, edge: Edge,
        secret: nat)
    requires Retitled(a, m, edge, secret) && Retitled(b, n, edge, secret)
    requires a.key == pre + edge.source + post && OnlyThere(pre, edge.source, post)
    requires b.key == pre + edge.source + post2 && OnlyThere(pre, edge.source, post2) && post != post2
    ensures m.key == pre + edge.dest + post && n.key == pre + edge.dest + post2 && m.hash != n.hash
  {
    TargetInKey(pre, post, m.key, edge);
    TargetInKey(pre, post2, n.key, edge);
    KeysStayApart(pre, post, pre, post2, m.key, n.key, edge);
  }

  // ---- The whole queue ----

  /** Of the edges that were queued, those stay that some event still has to go along. */
  ghost predicate StillNeeded(was: set<Edge>, now: set<Edge>, evs: Events) {
    forall x :: x in now <==> x in was && exists e | e in evs :: ToRename(evs[e], x)
  }

  ghost predicate NothingToRename(evs: Events, queue: seq<Edge>) {
    forall e, x | e in evs && x in queue :: !ToRename(evs[e], x)
  }

  lemma QueueMeans(was: set<Edge>, queue: seq<Edge>, evs: Events)
    requires forall x :: x in queue <==> x in was
    ensures StillNeeded(was, (set x | x in was && SomeAt(evs, x)), evs)
    ensures AllStuck(evs, queue) ==> NothingToRename(evs, queue)
  {
    forall e, x | e in evs ensures ToRename(evs[e], x) <==> AtSource(evs[e], x) {}
    forall x ensures SomeAt(evs, x) <==> exists e | e in evs :: ToRename(evs[e], x) {
      if SomeAt(evs, x) {
        var e :| e in evs && AtSource(evs[e], x);
        assert ToRename(evs[e], x);
      }
    }
    if AllStuck(evs, queue) {
      forall e, x | e in evs && x in queue ensures !ToRename(evs[e], x) {
        var i :| 0 <= i < |queue| && queue[i] == x;
        assert !AtSource(evs[e], queue[i]);
      }
    }
  }
}
