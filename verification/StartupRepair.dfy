/** The startup step that leaves at most one pending event per dedupe hash. */
module StartupRepair {
  import opened AlertRows
  import opened DuplicateMerge

  /** Same sink as some row already done. */
  predicate Handled(rows: Rows, keeper: EventId, done: set<DispatchId>, d: DispatchId)
    requires d in rows && done <= rows.Keys
  {
    d in done || (rows[d].event == keeper && exists x | x in done :: rows[x].sink == rows[d].sink)
  }

  /** The merge of a pair after the duplicate's rows in done. */
  function PartPair(rows: Rows, keeper: EventId, dup: EventId, done: set<DispatchId>, now: Time): Rows
    requires done <= rows.Keys
  {
    map d | d in rows && (Handled(rows, keeper, done, d) ==> Kept(rows, keeper, dup, d)) ::
      if Handled(rows, keeper, done, d) then PairRow(rows, keeper, dup, d, now) else rows[d]
  }

  predicate SinkFree(rows: Rows, e: EventId, sink: string) {
    !exists k | k in rows :: At(rows, e, sink, k)
  }

  /** What the loop body does with one row of the duplicate. */
  function StepRow(rows: Rows, keeper: EventId, d: DispatchId, now: Time): Rows
    requires d in rows
  {
    var sink := rows[d].sink;
    if SinkFree(rows, keeper, sink) then rows[d := rows[d].(event := keeper)]
    else if SinkClosed(rows, keeper, sink) then
      if Active(rows[d].status) then rows[d := ResetRow(rows[d], now)] else rows
    else if forall k | k in rows && At(rows, keeper, sink, k) :: Better(rows[d], d, rows[k], k) then
      (map x | x in rows && !At(rows, keeper, sink, x) :: rows[x])[d := rows[d].(event := keeper)]
    else rows - {d}
  }

  /** The keeper's rows for a sink not handled yet are still the original ones. */
  lemma PartPairSlot(rows: Rows, keeper: EventId, dup: EventId, done: set<DispatchId>, now: Time, d: DispatchId,
        k: DispatchId)
    requires UniqueSinks(rows) && keeper != dup && done <= rows.Keys
    requires forall x | x in done :: rows[x].event == dup
    requires d in rows && rows[d].event == dup && d !in done
    ensures var cur := PartPair(rows, keeper, dup, done, now);
      && d in cur && cur[d] == rows[d]
      && (At(cur, keeper, rows[d].sink, k) <==> At(rows, keeper, rows[d].sink, k))
      && (At(rows, keeper, rows[d].sink, k) ==> cur[k] == rows[k])
  {
    forall x | x in done ensures rows[x].sink != rows[d].sink {
      assert !SameSlot(rows[x], rows[d]);
    }
  }

  /** Handling d in addition changes the picture only at d and at the keeper's row for its sink. */
  lemma PartPairElsewhere(rows: Rows, keeper: EventId, dup: EventId, done: set<DispatchId>, now: Time,
        d: DispatchId, x: DispatchId)
    requires keeper != dup && done <= rows.Keys && d in rows && rows[d].event == dup
    requires x != d && !At(rows, keeper, rows[d].sink, x)
    ensures var (cur, next) := (PartPair(rows, keeper, dup, done, now), PartPair(rows, keeper, dup, done + {d}, now));
      (x in cur <==> x in next) && (x in cur ==> cur[x] == next[x])
  {
    if x in rows { assert Handled(rows, keeper, done + {d}, x) <==> Handled(rows, keeper, done, x); }
  }

  /** At d and at the keeper's row for its sink the picture is the finished merge's. */
  lemma PartPairHere(rows: Rows, keeper: EventId, dup: EventId, done: set<DispatchId>, now: Time, d: DispatchId,
        x: DispatchId)
    requires keeper != dup && done <= rows.Keys && d in rows && rows[d].event == dup
    requires x == d || At(rows, keeper, rows[d].sink, x)
    ensures var next := PartPair(rows, keeper, dup, done + {d}, now);
      (x in next <==> Kept(rows, keeper, dup, x)) && (x in next ==> next[x] == PairRow(rows, keeper, dup, x, now))
  {
    assert Handled(rows, keeper, done + {d}, x);
  }

  /** The loop body settles d and its opposite number as the finished merge does, and nothing else. */
  lemma StepRowHere(rows: Rows, cur: Rows, keeper: EventId, dup: EventId, now: Time, d: DispatchId, x: DispatchId)
    requires UniqueSinks(rows) && keeper != dup && d in rows && rows[d].event == dup && d in cur && cur[d] == rows[d]
    requires forall k: DispatchId :: At(cur, keeper, rows[d].sink, k) <==> At(rows, keeper, rows[d].sink, k)
    requires forall k: DispatchId | At(rows, keeper, rows[d].sink, k) :: k in cur && cur[k] == rows[k]
    ensures var n := StepRow(cur, keeper, d, now);
      if x == d || At(rows, keeper, rows[d].sink, x) then
        (x in n <==> Kept(rows, keeper, dup, x)) && (x in n ==> n[x] == PairRow(rows, keeper, dup, x, now))
      else (x in n <==> x in cur) && (x in n ==> n[x] == cur[x])
  {
    var sink := rows[d].sink;
    assert SinkFree(cur, keeper, sink) == SinkFree(rows, keeper, sink);
    ClosedRow(cur, keeper, sink);
    ClosedRow(rows, keeper, sink);
    if k :| At(rows, keeper, sink, k) {
      OnlyOne(rows, keeper, sink, k);
      OnlyOne(rows, dup, sink, d);
      ReadSink(rows, keeper, sink);
      assert Facing(rows, keeper, d, k);
      assert Joins(rows, keeper, dup, d) <==> Better(rows[d], d, rows[k], k);
      assert Ousted(rows, dup, k) <==> Ousts(rows, dup, d, k);
    }
  }

  lemma SamePoints(rows: Rows, cur: Rows, keeper: EventId, dup: EventId, done: set<DispatchId>, now: Time,
        d: DispatchId)
    requires UniqueSinks(rows) && keeper != dup && done <= rows.Keys && cur == PartPair(rows, keeper, dup, done, now)
    requires d in rows && rows[d].event == dup && d in cur && cur[d] == rows[d]
    requires forall k: DispatchId :: At(cur, keeper, rows[d].sink, k) <==> At(rows, keeper, rows[d].sink, k)
    requires forall k: DispatchId | At(rows, keeper, rows[d].sink, k) :: k in cur && cur[k] == rows[k]
    ensures StepRow(cur, keeper, d, now) == PartPair(rows, keeper, dup, done + {d}, now)
  {
    var (n, next) := (StepRow(cur, keeper, d, now), PartPair(rows, keeper, dup, done + {d}, now));
    forall x: DispatchId ensures (x in n <==> x in next) && (x in n ==> n[x] == next[x]) {
      StepRowHere(rows, cur, keeper, dup, now, d, x);
      if x == d || At(rows, keeper, rows[d].sink, x) {
        PartPairHere(rows, keeper, dup, done, now, d, x);
      } else {
        PartPairElsewhere(rows, keeper, dup, done, now, d, x);
      }
    }
    assert n.Keys == next.Keys;
  }

  lemma PartPairStep(rows: Rows, keeper: EventId, dup: EventId, done: set<DispatchId>, now: Time, d: DispatchId)
    requires UniqueSinks(rows) && keeper != dup && done <= rows.Keys
    requires forall x | x in done :: rows[x].event == dup
    requires d in rows && rows[d].event == dup && d !in done
    ensures d in PartPair(rows, keeper, dup, done, now)
    ensures StepRow(PartPair(rows, keeper, dup, done, now), keeper, d, now) ==
      PartPair(rows, keeper, dup, done + {d}, now)
  {
    var cur := PartPair(rows, keeper, dup, done, now);
    forall k: DispatchId
      ensures d in cur && cur[d] == rows[d] && (At(cur, keeper, rows[d].sink, k) <==> At(rows, keeper, rows[d].sink, k))
      ensures At(rows, keeper, rows[d].sink, k) ==> cur[k] == rows[k]
    {
      PartPairSlot(rows, keeper, dup, done, now, d, k);
    }
    SamePoints(rows, cur, keeper, dup, done, now, d);
  }

  lemma PartPairDone(rows: Rows, keeper: EventId, dup: EventId, done: set<DispatchId>, now: Time)
    requires keeper != dup && done <= rows.Keys
    requires forall x | x in rows :: rows[x].event == dup <==> x in done
    ensures PartPair(rows, keeper, dup, done, now) == MergePair(rows, keeper, dup, now)
  {
    forall x | x in rows && !Handled(rows, keeper, done, x)
      ensures Kept(rows, keeper, dup, x) && PairRow(rows, keeper, dup, x, now) == rows[x]
    {
      if rows[x].event == keeper {
        assert forall d | d in rows :: !Ousts(rows, dup, d, x);
      }
    }
  }

  /** ORDER BY created_at DESC, id DESC */
  predicate Newer(evs: Events, e: EventId, f: EventId)
    requires e in evs && f in evs
  {
    evs[e].createdAt > evs[f].createdAt || (evs[e].createdAt == evs[f].createdAt && e > f)
  }

  predicate NewestFirst(evs: Events, ids: seq<EventId>)
    requires forall e | e in ids :: e in evs
  {
    forall i, j | 0 <= i < j < |ids| :: Newer(evs, ids[i], ids[j])
  }

  lemma {:induction false} NewestExists(evs: Events, s: set<EventId>) returns (newest: EventId)
    requires s != {} && s <= evs.Keys
    ensures newest in s && forall x | x in s && x != newest :: Newer(evs, newest, x)
  {
    var x :| x in s;
    if s == {x} {
      newest := x;
    } else {
      var m := NewestExists(evs, s - {x});
      newest := if Newer(evs, x, m) then x else m;
      forall y | y in s && y != newest ensures Newer(evs, newest, y) {
        if y != x { assert y in s - {x}; }
      }
    }
  }

  function PendingOf(evs: Events, h: Hash): set<EventId> {
    set e | e in evs && evs[e].status.EventPending? && evs[e].hash == h
  }

  /** Active rows are given up; one that was never attempted counts one attempt. */
  function GiveUp(d: Dispatch, now: Time): Dispatch {
    if Active(d.status) then ResetRow(d, now).(attempts := if d.attempts == 0 then 1 else d.attempts) else d
  }

  function ActiveRows(rows: Rows): set<DispatchId> {
    set d | d in rows && Active(rows[d].status)
  }

  function PendingEvents(evs: Events): set<EventId> {
    set e | e in evs && evs[e].status.EventPending?
  }

  /** What both UPDATE statements of the reset leave. */
  function AfterReset(db: Db, now: Time): Db {
    db.(dispatches := map d | d in db.dispatches :: GiveUp(db.dispatches[d], now),
        events := map e | e in db.events ::
          if db.events[e].status.EventPending? then db.events[e].(status := EventReset) else db.events[e])
  }

  /** GROUP BY dedupe_hash HAVING COUNT(*) > 1 */
  /** Waiting and claimed rows are reset with at least one attempt on record, pending events are reset, and
      nothing else is touched. */
  ghost predicate GaveUp(evs: Events, rows: Rows, evs2: Events, rows2: Rows, now: Time) {
    && evs2.Keys == evs.Keys && rows2.Keys == rows.Keys
    && (forall d | d in rows && (rows[d].status == Pending || rows[d].status == InFlight) ::
      var attempts := if rows[d].attempts < 1 then 1 else rows[d].attempts;
      rows2[d] == Dispatch(rows[d].event, rows[d].sink, Reset, "", "", attempts, 0, 0, rows[d].deliveredAt, now))
    && (forall d | d in rows && rows[d].status != Pending && rows[d].status != InFlight :: rows2[d] == rows[d])
    && (forall e | e in evs ::
      evs2[e] == if evs[e].status == EventPending then evs[e].(status := EventReset) else evs[e])
  }

  function DuplicateHashes(evs: Events): (hs: set<Hash>)
    ensures forall h :: h in hs <==> |PendingOf(evs, h)| > 1
  {
    var hs := set e | e in evs && |PendingOf(evs, evs[e].hash)| > 1 :: evs[e].hash;
    assert forall h | |PendingOf(evs, h)| > 1 :: exists e :: e in PendingOf(evs, h) by {
      forall h | |PendingOf(evs, h)| > 1 ensures exists e :: e in PendingOf(evs, h) {
        var e :| e in PendingOf(evs, h);
      }
    }
    hs
  }

  function FailAll(evs: Events, dups: seq<EventId>): Events {
    map e | e in evs :: if e in dups then evs[e].(status := EventFailed) else evs[e]
  }

  function GroupEvents(evs: Events, rows: Rows, ids: seq<EventId>): Events
    requires ids != []
  {
    map e | e in evs ::
      if e in ids[1..] then evs[e].(status := EventFailed)
      else if e == ids[0] then evs[e].(status := DerivedStatus(rows, e))
      else evs[e]
  }

  lemma PartPairUnique(rows: Rows, keeper: EventId, dup: EventId, done: set<DispatchId>, now: Time)
    requires UniqueSinks(rows) && keeper != dup && done <= rows.Keys && forall x | x in done :: rows[x].event == dup
    ensures UniqueSinks(PartPair(rows, keeper, dup, done, now))
  {
    JoinedUnique(rows, PartPair(rows, keeper, dup, done, now), keeper, dup);
  }

  /** ids are the pending events of hash h, newest first. */
  ghost predicate IsGroup(evs: Events, h: Hash, ids: seq<EventId>) {
    && |ids| > 1 && (forall e :: e in ids <==> e in PendingOf(evs, h))
    && NewestFirst(evs, ids) && Distinct(ids[0], ids[1..])
    && forall e | e in ids && e != ids[0] ::
      evs[e].createdAt < evs[ids[0]].createdAt || (evs[e].createdAt == evs[ids[0]].createdAt && e < ids[0])
  }

  /** The group was folded into its newest event: its status is derived from its rows, the others are
      failed without work, and every sink is repaired. */
  ghost predicate GroupDone(evs: Events, rows: Rows, evs2: Events, rows2: Rows, ids: seq<EventId>)
    requires evs.Keys == evs2.Keys && |ids| > 1 && forall e | e in ids :: e in evs
  {
    && evs2[ids[0]] == evs[ids[0]].(status := DerivedStatus(rows2, ids[0]))
    && (forall i | 1 <= i < |ids| :: evs2[ids[i]] == evs[ids[i]].(status := EventFailed))
    && (forall sink :: SinkRepaired(rows, rows2, ids[0], ids[1..], sink))
    && (forall sink :: Survives(rows, rows2, ids[0], ids[1..], sink))
  }

  predicate Settled(ev: Event, groups: map<Hash, seq<EventId>>) {
    ev.status.EventPending? && ev.hash in groups
  }

  ghost predicate Repaired(evs: Events, rows: Rows, evs2: Events, rows2: Rows, groups: map<Hash, seq<EventId>>) {
    && evs.Keys == evs2.Keys
    && (forall h | h in groups :: IsGroup(evs, h, groups[h]))
    && (forall h | h in groups :: GroupDone(evs, rows, evs2, rows2, groups[h]))
    && (forall e | e in evs && !Settled(evs[e], groups) :: evs2[e] == evs[e] && SameEventRows(rows, rows2, e))
  }

  lemma RepairedHash(evs: Events, rows: Rows, evs2: Events, rows2: Rows, groups: map<Hash, seq<EventId>>, e: EventId)
    requires Repaired(evs, rows, evs2, rows2, groups) && e in evs
    ensures evs2[e].hash == evs[e].hash && evs2[e].createdAt == evs[e].createdAt
    ensures evs2[e].status.EventPending? ==> !Settled(evs[e], groups) || e == groups[evs[e].hash][0]
  {
    if Settled(evs[e], groups) {
      var ids := groups[evs[e].hash];
      assert e in PendingOf(evs, evs[e].hash);
      var i :| 0 <= i < |ids| && ids[i] == e;
      assert GroupDone(evs, rows, evs2, rows2, ids);
    }
  }

  lemma GroupIntact(evs: Events, rows: Rows, evs2: Events, rows2: Rows, groups: map<Hash, seq<EventId>>, h: Hash)
    requires Repaired(evs, rows, evs2, rows2, groups) && h !in groups
    ensures PendingOf(evs2, h) == PendingOf(evs, h)
    ensures forall e | e in evs :: evs2[e].createdAt == evs[e].createdAt
  {
    forall e | e in evs ensures e in PendingOf(evs2, h) <==> e in PendingOf(evs, h) {
      RepairedHash(evs, rows, evs2, rows2, groups, e);
    }
    forall e | e in evs ensures evs2[e].createdAt == evs[e].createdAt {
      RepairedHash(evs, rows, evs2, rows2, groups, e);
    }
  }

  lemma SortedIsGroup(evs: Events, evs2: Events, h: Hash, ids: seq<EventId>)
    requires evs.Keys == evs2.Keys && PendingOf(evs2, h) == PendingOf(evs, h) && |ids| > 1
    requires forall e :: e in ids <==> e in PendingOf(evs2, h)
    requires NewestFirst(evs2, ids) && forall e | e in evs :: evs2[e].createdAt == evs[e].createdAt
    ensures IsGroup(evs, h, ids)
  {
    forall i | 0 <= i < |ids| ensures ids[i] in evs {
      assert ids[i] in ids;
    }
    forall i, j | 0 <= i < j < |ids| ensures ids[i] != ids[j] && Newer(evs, ids[i], ids[j]) {
      assert Newer(evs2, ids[i], ids[j]);
    }
  }

  lemma ContenderFrame(a: Rows, a2: Rows, ids: seq<EventId>, sink: string, d: DispatchId)
    requires ids != [] && forall e | e in ids :: SameEventRows(a, a2, e)
    ensures Contender(a, ids[0], ids[1..], sink, d) <==> Contender(a2, ids[0], ids[1..], sink, d)
    ensures Contender(a, ids[0], ids[1..], sink, d) ==> a[d] == a2[d]
    ensures At(a, ids[0], sink, d) <==> At(a2, ids[0], sink, d)
    ensures At(a, ids[0], sink, d) ==> a[d] == a2[d]
  {
    assert forall e :: e in ids <==> e == ids[0] || e in ids[1..];
    if d in a && a[d].event in ids { assert SameEventRows(a, a2, a[d].event); }
    if d in a2 && a2[d].event in ids { assert SameEventRows(a, a2, a2[d].event); }
  }

  lemma SurvivesFrame(a: Rows, a2: Rows, b: Rows, b2: Rows, ids: seq<EventId>, sink: string)
    requires ids != [] && (forall e | e in ids :: SameEventRows(a, a2, e))
    requires (forall e | e in ids :: SameEventRows(b, b2, e)) && Survives(a, b, ids[0], ids[1..], sink)
    ensures Survives(a2, b2, ids[0], ids[1..], sink)
  {
    var (keeper, dups) := (ids[0], ids[1..]);
    forall d: DispatchId
      ensures Contender(a, keeper, dups, sink, d) <==> Contender(a2, keeper, dups, sink, d)
      ensures Contender(a, keeper, dups, sink, d) ==> a[d] == a2[d]
      ensures At(b, keeper, sink, d) <==> At(b2, keeper, sink, d)
      ensures At(b, keeper, sink, d) ==> b[d] == b2[d]
    {
      ContenderFrame(a, a2, ids, sink, d);
      ContenderFrame(b, b2, ids, sink, d);
    }
    if k :| Preferred(a, keeper, dups, sink, k) && Only(b, keeper, sink, k) && b[k] == a[k].(event := keeper) {
      assert Preferred(a2, keeper, dups, sink, k);
    }
  }

  /** A repair judged against the rows before, or after, a change elsewhere. */
  lemma SinkRepairedFrame(a: Rows, a2: Rows, b: Rows, b2: Rows, ids: seq<EventId>, sink: string)
    requires ids != [] && (forall e | e in ids :: SameEventRows(a, a2, e))
    requires (forall e | e in ids :: SameEventRows(b, b2, e))
    requires SinkRepaired(a, b, ids[0], ids[1..], sink) && Survives(a, b, ids[0], ids[1..], sink)
    ensures SinkRepaired(a2, b2, ids[0], ids[1..], sink) && Survives(a2, b2, ids[0], ids[1..], sink)
  {
    SurvivesFrame(a, a2, b, b2, ids, sink);
    forall e | e in ids
      ensures SinkClosed(a, e, sink) == SinkClosed(a2, e, sink) && SinkActive(a, e, sink) == SinkActive(a2, e, sink)
      ensures SinkClosed(b, e, sink) == SinkClosed(b2, e, sink) && SinkActive(b, e, sink) == SinkActive(b2, e, sink)
    {
      SameEventSinks(a, a2, e, sink);
      SameEventSinks(b, b2, e, sink);
    }
    assert forall i | 0 <= i < |ids[1..]| :: ids[1..][i] in ids;
  }

  lemma SameRowsRefl(a: Rows, e: EventId)
    ensures SameEventRows(a, a, e)
  {
  }

  lemma NewGroupDone(evs: Events, rows: Rows, evs1: Events, rows1: Rows, ids: seq<EventId>, now: Time)
    requires evs.Keys == evs1.Keys && |ids| > 1 && Distinct(ids[0], ids[1..]) && UniqueSinks(rows1)
    requires forall e | e in ids :: e in evs && evs1[e] == evs[e] && SameEventRows(rows, rows1, e)
    ensures var rows2 := MergeGroup(rows1, ids[0], ids[1..], now);
      GroupDone(evs, rows, GroupEvents(evs1, rows2, ids), rows2, ids)
  {
    var rows2 := MergeGroup(rows1, ids[0], ids[1..], now);
    forall sink
      ensures SinkRepaired(rows, rows2, ids[0], ids[1..], sink) && Survives(rows, rows2, ids[0], ids[1..], sink)
    {
      GroupRepaired(rows1, ids[0], ids[1..], now, sink);
      GroupSurvivor(rows1, ids[0], ids[1..], now, sink);
      forall e | e in ids ensures SameEventRows(rows1, rows, e) {}
      forall e | e in ids ensures SameEventRows(rows2, rows2, e) { SameRowsRefl(rows2, e); }
      SinkRepairedFrame(rows1, rows, rows2, rows2, ids, sink);
    }
    forall i | 1 <= i < |ids| ensures ids[i] in ids[1..] {
      assert ids[1..][i - 1] == ids[i];
    }
  }

  lemma DerivedSame(a: Rows, b: Rows, e: EventId)
    requires SameEventRows(a, b, e)
    ensures DerivedStatus(a, e) == DerivedStatus(b, e)
  {
    assert HasActive(a, e) == HasActive(b, e);
    assert HasClosed(a, e) == HasClosed(b, e);
    assert HasStatus(a, e, DeadLettered) == HasStatus(b, e, DeadLettered);
    assert HasStatus(a, e, Reset) == HasStatus(b, e, Reset);
  }

  lemma OldGroupDone(evs: Events, rows: Rows, evs1: Events, rows1: Rows, evs2: Events, rows2: Rows, ids: seq<EventId>)
    requires evs.Keys == evs1.Keys == evs2.Keys && |ids| > 1 && forall e | e in ids :: e in evs
    requires GroupDone(evs, rows, evs1, rows1, ids)
    requires forall e | e in ids :: evs2[e] == evs1[e] && SameEventRows(rows1, rows2, e)
    ensures GroupDone(evs, rows, evs2, rows2, ids)
  {
    DerivedSame(rows1, rows2, ids[0]);
    forall sink
      ensures SinkRepaired(rows, rows2, ids[0], ids[1..], sink) && Survives(rows, rows2, ids[0], ids[1..], sink)
    {
      forall e | e in ids ensures SameEventRows(rows, rows, e) { SameRowsRefl(rows, e); }
      SinkRepairedFrame(rows, rows, rows1, rows2, ids, sink);
    }
  }

  lemma GroupsDisjoint(evs: Events, g: Hash, gIds: seq<EventId>, h: Hash, ids: seq<EventId>)
    requires g != h && IsGroup(evs, g, gIds) && IsGroup(evs, h, ids)
    ensures forall e | e in gIds :: e in evs && e !in ids
  {
    forall e | e in gIds ensures e in evs && e !in ids {
      assert e in PendingOf(evs, g);
    }
  }

  lemma GroupStillDone(evs: Events, rows: Rows, evs1: Events, rows1: Rows,
                      evs2: Events, rows2: Rows, groups: map<Hash, seq<EventId>>, h: Hash, ids: seq<EventId>, g: Hash)
    requires Repaired(evs, rows, evs1, rows1, groups) && h !in groups && IsGroup(evs, h, ids) && evs2.Keys == evs.Keys
    requires forall e | e in evs && e !in ids :: evs2[e] == evs1[e] && SameEventRows(rows1, rows2, e)
    requires g in groups
    ensures GroupDone(evs, rows, evs2, rows2, groups[g])
  {
    assert IsGroup(evs, g, groups[g]);
    GroupsDisjoint(evs, g, groups[g], h, ids);
    OldGroupDone(evs, rows, evs1, rows1, evs2, rows2, groups[g]);
  }

  lemma SameRowsTransitive(a: Rows, b: Rows, c: Rows, e: EventId)
    requires SameEventRows(a, b, e) && SameEventRows(b, c, e)
    ensures SameEventRows(a, c, e)
  {
  }

  lemma OthersStillSame(evs: Events, rows: Rows, evs1: Events, rows1: Rows,
                      evs2: Events, rows2: Rows, groups: map<Hash, seq<EventId>>, h: Hash, ids: seq<EventId>,
                        e: EventId)
    requires Repaired(evs, rows, evs1, rows1, groups) && h !in groups && IsGroup(evs, h, ids) && evs2.Keys == evs.Keys
    requires forall e | e in evs && e !in ids :: evs2[e] == evs1[e] && SameEventRows(rows1, rows2, e)
    requires e in evs && !Settled(evs[e], groups[h := ids])
    ensures evs2[e] == evs[e] && SameEventRows(rows, rows2, e)
  {
    assert e !in PendingOf(evs, h) && !Settled(evs[e], groups);
    SameRowsTransitive(rows, rows1, rows2, e);
  }

  lemma StillRepaired(evs: Events, rows: Rows, evs1: Events, rows1: Rows,
                      evs2: Events, rows2: Rows, groups: map<Hash, seq<EventId>>, h: Hash, ids: seq<EventId>)
    requires Repaired(evs, rows, evs1, rows1, groups) && h !in groups && IsGroup(evs, h, ids) && evs2.Keys == evs.Keys
    requires forall e | e in evs && e !in ids :: evs2[e] == evs1[e] && SameEventRows(rows1, rows2, e)
    requires GroupDone(evs, rows, evs2, rows2, ids)
    ensures Repaired(evs, rows, evs2, rows2, groups[h := ids])
  {
    var next := groups[h := ids];
    forall g | g in next ensures IsGroup(evs, g, next[g]) && GroupDone(evs, rows, evs2, rows2, next[g]) {
      if g != h { GroupStillDone(evs, rows, evs1, rows1, evs2, rows2, groups, h, ids, g); }
    }
    forall e | e in evs && !Settled(evs[e], next) ensures evs2[e] == evs[e] && SameEventRows(rows, rows2, e) {
      OthersStillSame(evs, rows, evs1, rows1, evs2, rows2, groups, h, ids, e);
    }
  }

  lemma OneMoreGroup(evs: Events, rows: Rows, evs1: Events, rows1: Rows,
                     groups: map<Hash, seq<EventId>>, h: Hash, ids: seq<EventId>, now: Time)
    requires Repaired(evs, rows, evs1, rows1, groups) && h !in groups && IsGroup(evs, h, ids) && UniqueSinks(rows1)
    ensures var rows2 := MergeGroup(rows1, ids[0], ids[1..], now);
      UniqueSinks(rows2) && Repaired(evs, rows, GroupEvents(evs1, rows2, ids), rows2, groups[h := ids])
  {
    var rows2 := MergeGroup(rows1, ids[0], ids[1..], now);
    var evs2 := GroupEvents(evs1, rows2, ids);
    MergeGroupFrame(rows1, ids[0], ids[1..], now, 0);
    NewGroupDone(evs, rows, evs1, rows1, ids, now);
    forall e | e in evs && e !in ids ensures evs2[e] == evs1[e] && SameEventRows(rows1, rows2, e) {
      MergeGroupFrame(rows1, ids[0], ids[1..], now, e);
    }
    StillRepaired(evs, rows, evs1, rows1, evs2, rows2, groups, h, ids);
  }

  lemma NothingRepaired(evs: Events, rows: Rows)
    ensures Repaired(evs, rows, evs, rows, map[])
  {
    forall e | e in evs ensures SameEventRows(rows, rows, e) { SameRowsRefl(rows, e); }
  }

  /** A hash has more than one pending event exactly when two distinct pending events share it. */
  lemma CountsRivals(evs: Events)
    ensures forall e, f | e in evs && f in evs && e != f && Rivals(evs[e], evs[f]) :: |PendingOf(evs, evs[e].hash)| > 1
    ensures forall h | |PendingOf(evs, h)| > 1 ::
      exists e, f | e in evs && f in evs && e != f :: Rivals(evs[e], evs[f]) && evs[e].hash == h
  {
    forall e, f | e in evs && f in evs && e != f && Rivals(evs[e], evs[f]) ensures |PendingOf(evs, evs[e].hash)| > 1 {
      var s := PendingOf(evs, evs[e].hash);
      assert {e, f} <= s;
      assert |s - {e}| == |s| - 1 && f in s - {e};
    }
    forall h | |PendingOf(evs, h)| > 1 ensures exists e, f | e in evs && f in evs && e != f ::
      Rivals(evs[e], evs[f]) && evs[e].hash == h {
      var s := PendingOf(evs, h);
      var e :| e in s;
      assert |s - {e}| > 0;
      var f :| f in s - {e};
      assert Rivals(evs[e], evs[f]);
    }
  }

  /** With every duplicate hash handled, pending hashes are unique. */
  lemma RepairedUnique(evs: Events, rows: Rows, evs2: Events, rows2: Rows, groups: map<Hash, seq<EventId>>)
    requires Repaired(evs, rows, evs2, rows2, groups)
    requires forall e, f | e in evs && f in evs && e != f && Rivals(evs[e], evs[f]) :: evs[e].hash in groups
    ensures UniquePending(evs2)
  {
    forall e, f | e in evs2 && f in evs2 && Rivals(evs2[e], evs2[f]) ensures e == f {
      RepairedHash(evs, rows, evs2, rows2, groups, e);
      RepairedHash(evs, rows, evs2, rows2, groups, f);
    }
  }

  lemma AllRepaired(evs: Events, rows: Rows, evs2: Events, rows2: Rows, groups: map<Hash, seq<EventId>>)
    requires Repaired(evs, rows, evs2, rows2, groups)
    requires forall h :: h in groups <==> |PendingOf(evs, h)| > 1
    ensures UniquePending(evs2)
    ensures UniquePending(evs) <==> groups == map[]
  {
    CountsRivals(evs);
    RepairedUnique(evs, rows, evs2, rows2, groups);
    if groups != map[] {
      var h :| h in groups;
      assert |PendingOf(evs, h)| > 1;
    }
  }

  class StartupStore {
    var events: Events
    var dispatches: Rows

    constructor (events: Events, dispatches: Rows)
      ensures this.events == events && this.dispatches == dispatches
    {
      this.events, this.dispatches := events, dispatches;
    }

    /** The table updates of the reset step. */
    method ResetAlertState(now: Time) returns (changed: bool)
      modifies this
      ensures Db(events, dispatches, 0, 0) == AfterReset(Db(old(events), old(dispatches), 0, 0), now)
      ensures GaveUp(old(events), old(dispatches), events, dispatches, now)
      ensures changed <==> ActiveRows(old(dispatches)) != {} || PendingEvents(old(events)) != {}
    {
      var work, pending := ActiveRows(dispatches), PendingEvents(events);
      dispatches := map d | d in dispatches :: if d in work then GiveUp(dispatches[d], now) else dispatches[d];
      events := map e | e in events :: if e in pending then events[e].(status := EventReset) else events[e];
      changed := work != {} || pending != {};
    }

    method MergeRow(keeper: EventId, d: DispatchId, now: Time)
      requires d in dispatches && dispatches[d].event != keeper && UniqueSinks(dispatches)
      modifies this`dispatches
      ensures dispatches == StepRow(old(dispatches), keeper, d, now)
    {
      var row := dispatches[d];
      if k :| k in dispatches && At(dispatches, keeper, row.sink, k) {
        OnlyOne(dispatches, keeper, row.sink, k);
        ReadSink(dispatches, keeper, row.sink);
        var existing := dispatches[k];
        if Closed(existing.status) {
          if Active(row.status) { dispatches := dispatches[d := ResetRow(row, now)]; }
        } else if Closed(row.status) || Better(row, d, existing, k) {
          dispatches := dispatches - {k};
          dispatches := dispatches[d := row.(event := keeper)];
        } else {
          dispatches := dispatches - {d};
        }
      } else {
        dispatches := dispatches[d := row.(event := keeper)];
      }
    }

    /** One iteration of the merge, on top of the rows in done. */
    method MergeNext(ghost rows: Rows, ghost done: set<DispatchId>, keeper: EventId, dup: EventId, d: DispatchId,
          now: Time)
      requires UniqueSinks(rows) && keeper != dup && done <= rows.Keys && forall x | x in done :: rows[x].event == dup
      requires dispatches == PartPair(rows, keeper, dup, done, now) && d in rows && rows[d].event == dup && d !in done
      modifies this`dispatches
      ensures dispatches == PartPair(rows, keeper, dup, done + {d}, now)
    {
      PartPairStep(rows, keeper, dup, done, now, d);
      PartPairSlot(rows, keeper, dup, done, now, d, d);
      PartPairUnique(rows, keeper, dup, done, now);
      MergeRow(keeper, d, now);
    }

    /** Merges the duplicate's rows into the keeper's, row by row. */
    method MergeDuplicateDispatches(keeper: EventId, dup: EventId, now: Time)
      requires UniqueSinks(dispatches) && keeper != dup
      modifies this`dispatches
      ensures dispatches == MergePair(old(dispatches), keeper, dup, now)
      ensures forall sink :: Survives(old(dispatches), dispatches, keeper, [dup], sink)
    {
      ghost var rows := dispatches;
      ghost var done: set<DispatchId> := {};
      var rest := set d | d in dispatches && dispatches[d].event == dup;
      assert PartPair(rows, keeper, dup, {}, now) == rows;
      while rest != {}
        invariant done !! rest && done <= rows.Keys && forall d | d in rows ::
          rows[d].event == dup <==> d in done || d in rest
        invariant rest <= rows.Keys && dispatches == PartPair(rows, keeper, dup, done, now)
        decreases rest
      {
        var d :| d in rest;
        MergeNext(rows, done, keeper, dup, d, now);
        done, rest := done + {d}, rest - {d};
      }
      PartPairDone(rows, keeper, dup, done, now);
      forall sink ensures Survives(rows, dispatches, keeper, [dup], sink) {
        PairSurvivor(rows, keeper, dup, now, sink);
      }
    }

    /** Folds one more duplicate into the keeper: its rows, its leftover work, its status. */
    method FoldNext(ghost rows: Rows, ghost dups: seq<EventId>, keeper: EventId, dup: EventId, now: Time)
      requires UniqueSinks(dispatches) && keeper != dup && dup in events
      requires dispatches == MergeGroup(rows, keeper, dups, now)
      modifies this
      ensures UniqueSinks(dispatches) && dispatches == MergeGroup(rows, keeper, dups + [dup], now)
      ensures events == old(events)[dup := old(events)[dup].(status := EventFailed)]
    {
      assert (dups + [dup])[..|dups|] == dups;
      MergePairUnique(dispatches, keeper, dup, now);
      ResetIsIdle(dispatches, keeper, dup, now);
      MergeDuplicateDispatches(keeper, dup, now);
      dispatches := ResetActive(dispatches, dup, now);
      events := events[dup := events[dup].(status := EventFailed)];
    }

    /** Folds one group of duplicates, newest first, into its newest event. */
    method ReconcileGroup(ids: seq<EventId>, now: Time)
      requires ids != [] && Distinct(ids[0], ids[1..]) && UniqueSinks(dispatches) && forall e | e in ids :: e in events
      modifies this
      ensures dispatches == MergeGroup(old(dispatches), ids[0], ids[1..], now)
      ensures events == GroupEvents(old(events), dispatches, ids)
    {
      var keeper := ids[0];
      ghost var (evs, rows, dups) := (events, dispatches, ids[1..]);
      for i := 1 to |ids|
        invariant dispatches == MergeGroup(rows, keeper, dups[..i - 1], now) && UniqueSinks(dispatches)
        invariant events == FailAll(evs, dups[..i - 1])
      {
        FoldNext(rows, dups[..i - 1], keeper, ids[i], now);
        assert dups[..i] == dups[..i - 1] + [ids[i]];
      }
      assert dups[..|ids| - 1] == dups;
      events := events[keeper := events[keeper].(status := DerivedStatus(dispatches, keeper))];
    }

    /** The pending events of a hash, newest first. */
    method SortGroup(h: Hash) returns (ids: seq<EventId>)
      ensures forall e :: e in ids <==> e in PendingOf(events, h)
      ensures |ids| == |PendingOf(events, h)| && NewestFirst(events, ids)
    {
      var rest := PendingOf(events, h);
      ids := [];
      while rest != {}
        invariant rest <= PendingOf(events, h) && |ids| + |rest| == |PendingOf(events, h)|
        invariant forall e :: e in ids <==> e in PendingOf(events, h) - rest
        invariant NewestFirst(events, ids)
        invariant forall e, f | e in ids && f in rest :: Newer(events, e, f)
        decreases rest
      {
        ghost var some := NewestExists(events, rest);
        var x :| x in rest && forall y | y in rest && y != x :: Newer(events, x, y);
        ids, rest := ids + [x], rest - {x};
      }
    }

    /** Folds the pending events of one duplicated hash, on top of the groups folded before it. */
    method RepairHash(ghost evs: Events, ghost rows: Rows, ghost groups: map<Hash, seq<EventId>>, h: Hash, now: Time)
        returns (ghost ids: seq<EventId>)
      requires UniqueSinks(dispatches) && Repaired(evs, rows, events, dispatches, groups)
      requires h !in groups && |PendingOf(evs, h)| > 1
      modifies this
      ensures UniqueSinks(dispatches) && Repaired(evs, rows, events, dispatches, groups[h := ids])
    {
      ghost var (evs1, rows1) := (events, dispatches);
      GroupIntact(evs, rows, events, dispatches, groups, h);
      var sorted := SortGroup(h);
      SortedIsGroup(evs, evs1, h, sorted);
      ReconcileGroup(sorted, now);
      OneMoreGroup(evs, rows, evs1, rows1, groups, h, sorted, now);
      ids := sorted;
    }

    /** Leaves at most one pending event per hash. Every group of duplicates is folded into its newest
        event as GroupDone says; all other events and their rows are untouched. */
    method ReconcileDuplicates(now: Time) returns (changed: bool, ghost groups: map<Hash, seq<EventId>>)
      requires UniqueSinks(dispatches)
      modifies this
      ensures UniqueSinks(dispatches) && UniquePending(events) && events.Keys == old(events.Keys)
      ensures changed <==> !UniquePending(old(events))
      ensures forall h :: h in groups <==> |PendingOf(old(events), h)| > 1
      ensures Repaired(old(events), old(dispatches), events, dispatches, groups)
      ensures UniquePending(old(events)) ==> events == old(events) && dispatches == old(dispatches)
    {
      ghost var (evs, rows) := (events, dispatches);
      var hashes := DuplicateHashes(events);
      var rest := hashes;
      groups := map[];
      changed := false;
      NothingRepaired(evs, rows);
      while rest != {}
        invariant rest <= hashes
        invariant forall h :: h in groups <==> h in hashes && h !in rest
        invariant UniqueSinks(dispatches)
        invariant changed <==> rest != hashes
        invariant !changed ==> events == evs && dispatches == rows
        invariant Repaired(evs, rows, events, dispatches, groups)
        decreases rest
      {
        var h :| h in rest;
        ghost var ids := RepairHash(evs, rows, groups, h, now);
        groups := groups[h := ids];
        changed := true;
        rest := rest - {h};
      }
      AllRepaired(evs, rows, events, dispatches, groups);
    }
  }

  // ---- The reset after a lost key ----

  /** The reset leaves no work and no pending event, touches nothing that was finished, and keeps the
      two in step and the uniqueness constraints. */
  lemma ResetLeavesNothingPending(db: Db, now: Time)
    requires Schema(db)
    ensures var n := AfterReset(db, now);
      && Schema(n) && PendingIffActive(n) && UniquePending(n.events)
      && (forall e | e in n.events :: !n.events[e].status.EventPending? && !HasActive(n.dispatches, e))
      && (forall d | d in db.dispatches && !Active(db.dispatches[d].status) :: n.dispatches[d] == db.dispatches[d])
      && (forall e | e in db.events && !db.events[e].status.EventPending? :: n.events[e] == db.events[e])
  {
    var n := AfterReset(db, now);
    forall c, d | c in n.dispatches && d in n.dispatches && SameSlot(n.dispatches[c], n.dispatches[d]) ensures c == d {
      assert SameSlot(db.dispatches[c], db.dispatches[d]);
    }
  }

  /** The reset writes one status into every pending event. It is the one its rows imply exactly for
      events of which nothing had been delivered, skipped or dead-lettered before. */
  lemma ResetStatusDerivedExactly(db: Db, now: Time, e: EventId)
    requires PendingIffActive(db) && e in db.events && db.events[e].status.EventPending?
    ensures var n := AfterReset(db, now);
      n.events[e].status == DerivedStatus(n.dispatches, e) <==>
        !HasClosed(db.dispatches, e) && !HasStatus(db.dispatches, e, DeadLettered)
  {
    var n := AfterReset(db, now);
    var d :| d in db.dispatches && db.dispatches[d].event == e && Active(db.dispatches[d].status);
    assert n.dispatches[d].status == Reset;
    assert !HasActive(n.dispatches, e) && HasStatus(n.dispatches, e, Reset);
    forall c | c in db.dispatches && !Active(db.dispatches[c].status) ensures n.dispatches[c] == db.dispatches[c] {}
    assert HasClosed(n.dispatches, e) <==> HasClosed(db.dispatches, e);
    assert HasStatus(n.dispatches, e, DeadLettered) <==> HasStatus(db.dispatches, e, DeadLettered);
  }

  /** A pending event that one sink has got and another is waiting for. */
  function HalfDelivered(): Db {
    var at := Subject("k", "s", "", "", "", "", "down");
    var got := Dispatch(1, "x", Delivered, "w", "c", 1, 0, 0, 5, 5);
    var waiting := Dispatch(1, "y", Pending, "", "", 0, 0, 0, 0, 0);
    Db(map[1 := Event(at, "a", Hmac(0, "a"), 0, EventPending)], map[1 := got, 2 := waiting], 1, 2)
  }

  /** The reset calls it reset, while its rows say delivered. */
  lemma ResetHidesDelivery(now: Time)
    ensures var (db, n) := (HalfDelivered(), AfterReset(HalfDelivered(), now));
      && Schema(db) && PendingIffActive(db)
      && n.events[1].status.EventReset? && DerivedStatus(n.dispatches, 1).EventDelivered?
  {
    var (db, n) := (HalfDelivered(), AfterReset(HalfDelivered(), now));
    assert db.dispatches[2].event == 1 && Active(db.dispatches[2].status);
    assert n.dispatches[1] == db.dispatches[1] && n.dispatches[2].status.Reset?;
    assert HasClosed(n.dispatches, 1) && !HasActive(n.dispatches, 1);
  }
}
