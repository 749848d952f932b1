/** Startup repair of duplicate pending events: merging one duplicate's dispatch rows into the
    keeper's, and folding a whole group of duplicates into its newest event. */
module DuplicateMerge {
  import opened AlertRows

  function MergePriority(s: DispatchStatus): nat {
    match s
    case InFlight => 3
    case Pending => 2
    case DeadLettered => 1
    case _ => 0
  }

  /** The candidate row (with its id) replaces the current one. */
  predicate Better(a: Dispatch, aId: DispatchId, b: Dispatch, bId: DispatchId) {
    if Closed(b.status) then false
    else if Closed(a.status) then true
    else if MergePriority(a.status) != MergePriority(b.status) then MergePriority(a.status) > MergePriority(b.status)
    else if a.updatedAt != b.updatedAt then a.updatedAt > b.updatedAt
    else aId > bId
  }

  /** On rows that are not closed the preference is a strict total order, so which row survives does
      not depend on the order of comparison. */
  lemma BetterIsTotalOrder(a: Dispatch, i: DispatchId, b: Dispatch, j: DispatchId, c: Dispatch, k: DispatchId)
    requires !Closed(a.status) && !Closed(b.status) && !Closed(c.status)
    ensures !Better(a, i, a, i)
    ensures i != j ==> (Better(a, i, b, j) <==> !Better(b, j, a, i))
    ensures Better(a, i, b, j) && Better(b, j, c, k) ==> Better(a, i, c, k)
  {
  }

  predicate At(rows: Rows, e: EventId, sink: string, d: DispatchId) {
    d in rows && rows[d].event == e && rows[d].sink == sink
  }

  predicate SinkActive(rows: Rows, e: EventId, sink: string) {
    exists d | d in rows :: At(rows, e, sink, d) && Active(rows[d].status)
  }

  /** The duplicate's row replaces the keeper's row for the same sink. */
  predicate Ousts(rows: Rows, dup: EventId, d: DispatchId, k: DispatchId)
    requires k in rows
  {
    At(rows, dup, rows[k].sink, d) && Better(rows[d], d, rows[k], k)
  }

  predicate Ousted(rows: Rows, dup: EventId, k: DispatchId)
    requires k in rows
  {
    exists d | d in rows :: Ousts(rows, dup, d, k)
  }

  predicate Facing(rows: Rows, keeper: EventId, d: DispatchId, k: DispatchId)
    requires d in rows
  {
    At(rows, keeper, rows[d].sink, k)
  }

  /** d, a row of the duplicate, becomes the keeper's row for its sink. */
  predicate Joins(rows: Rows, keeper: EventId, dup: EventId, d: DispatchId)
    requires d in rows
  {
    forall k | k in rows && Facing(rows, keeper, d, k) :: Better(rows[d], d, rows[k], k)
  }

  /** d stays behind on the duplicate because the keeper's sink is closed. */
  predicate Stays(rows: Rows, keeper: EventId, d: DispatchId)
    requires d in rows
  {
    SinkClosed(rows, keeper, rows[d].sink)
  }

  predicate Kept(rows: Rows, keeper: EventId, dup: EventId, d: DispatchId)
    requires d in rows
  {
    if rows[d].event == keeper then !Ousted(rows, dup, d)
    else if rows[d].event == dup then Joins(rows, keeper, dup, d) || Stays(rows, keeper, d)
    else true
  }

  function PairRow(rows: Rows, keeper: EventId, dup: EventId, d: DispatchId, now: Time): Dispatch
    requires d in rows
  {
    if rows[d].event != dup then rows[d]
    else if Joins(rows, keeper, dup, d) then rows[d].(event := keeper)
    else if Active(rows[d].status) then ResetRow(rows[d], now)
    else rows[d]
  }

  function MergePair(rows: Rows, keeper: EventId, dup: EventId, now: Time): Rows {
    map d | d in rows && Kept(rows, keeper, dup, d) :: PairRow(rows, keeper, dup, d, now)
  }

  // ------------------------------------------------------------ one duplicate

  /** Rows stay where they are, or join the keeper where no row of its own is left. */
  lemma JoinedUnique(rows: Rows, n: Rows, keeper: EventId, dup: EventId)
    requires UniqueSinks(rows) && keeper != dup && n.Keys <= rows.Keys
    requires forall d | d in n :: n[d].sink == rows[d].sink
    requires forall d | d in n && n[d].event != rows[d].event ::
      rows[d].event == dup && n[d].event == keeper && Joins(rows, keeper, dup, d)
    requires forall d, k | d in n && k in n && n[d].event != rows[d].event && Facing(rows, keeper, d, k) ::
      !Ousted(rows, dup, k)
    ensures UniqueSinks(n)
  {
    forall c, d | c in n && d in n && SameSlot(n[c], n[d]) ensures c == d {
      if rows[c].event == rows[d].event {
        assert SameSlot(rows[c], rows[d]);
      } else if n[c].event != rows[c].event {
        assert Facing(rows, keeper, c, d) && Ousts(rows, dup, c, d);
      } else {
        assert Facing(rows, keeper, d, c) && Ousts(rows, dup, d, c);
      }
    }
  }

  lemma MergePairUnique(rows: Rows, keeper: EventId, dup: EventId, now: Time)
    requires UniqueSinks(rows) && keeper != dup
    ensures UniqueSinks(MergePair(rows, keeper, dup, now))
  {
    JoinedUnique(rows, MergePair(rows, keeper, dup, now), keeper, dup);
  }

  /** d is the only row of e for the sink. */
  ghost predicate Only(rows: Rows, e: EventId, sink: string, d: DispatchId) {
    At(rows, e, sink, d) && forall x | At(rows, e, sink, x) :: x == d
  }

  ghost predicate Vacant(rows: Rows, e: EventId, sink: string) {
    forall x :: !At(rows, e, sink, x)
  }

  lemma OnlyOne(rows: Rows, e: EventId, sink: string, d: DispatchId)
    requires UniqueSinks(rows) && At(rows, e, sink, d)
    ensures Only(rows, e, sink, d)
  {
    forall x | At(rows, e, sink, x) ensures x == d {
      assert SameSlot(rows[x], rows[d]);
    }
  }

  lemma ClosedRow(rows: Rows, e: EventId, sink: string)
    ensures SinkClosed(rows, e, sink) <==> exists d | d in rows :: At(rows, e, sink, d) && Closed(rows[d].status)
  {
    if SinkClosed(rows, e, sink) {
      var d :| d in rows && rows[d].event == e && rows[d].sink == sink && Closed(rows[d].status);
      assert At(rows, e, sink, d);
    }
  }

  lemma ReadSink(rows: Rows, e: EventId, sink: string)
    ensures Vacant(rows, e, sink) ==> !SinkClosed(rows, e, sink) && !SinkActive(rows, e, sink)
    ensures forall d | Only(rows, e, sink, d) ::
      (SinkClosed(rows, e, sink) <==> Closed(rows[d].status)) && (SinkActive(rows, e, sink) <==> Active(rows[d].status))
  {
    ClosedRow(rows, e, sink);
  }

  lemma OneRowPerSink(rows: Rows, e: EventId, sink: string)
    requires UniqueSinks(rows)
    ensures !(SinkClosed(rows, e, sink) && SinkActive(rows, e, sink))
  {
    if d :| At(rows, e, sink, d) {
      OnlyOne(rows, e, sink, d);
      ReadSink(rows, e, sink);
    }
  }

  /** After the merge, the pair's rows for a sink are among its rows before. */
  lemma PairOrigin(rows: Rows, keeper: EventId, dup: EventId, now: Time, sink: string)
    requires keeper != dup
    ensures var n := MergePair(rows, keeper, dup, now); forall x | At(n, keeper, sink, x) || At(n, dup, sink, x) ::
      At(rows, keeper, sink, x) || At(rows, dup, sink, x)
  {
  }

  /** Both events have a row for the sink: exactly one of the two becomes or stays the keeper's. */
  lemma PairBoth(rows: Rows, keeper: EventId, dup: EventId, now: Time, sink: string, k: DispatchId, d: DispatchId)
    requires keeper != dup && Only(rows, keeper, sink, k) && Only(rows, dup, sink, d)
    ensures var n := MergePair(rows, keeper, dup, now);
      if Better(rows[d], d, rows[k], k) then Only(n, keeper, sink, d) && n[d] == rows[d].(event := keeper)
        && Vacant(n, dup, sink)
      else
        && Only(n, keeper, sink, k) && n[k] == rows[k]
        && (if Closed(rows[k].status) then Only(n, dup, sink, d) && !Active(n[d].status) else Vacant(n, dup, sink))
  {
    PairOrigin(rows, keeper, dup, now, sink);
    assert Facing(rows, keeper, d, k);
    assert forall x | x in rows && Facing(rows, keeper, d, x) :: x == k;
    assert Joins(rows, keeper, dup, d) <==> Better(rows[d], d, rows[k], k);
    assert Ousted(rows, dup, k) <==> Ousts(rows, dup, d, k);
    assert Stays(rows, keeper, d) <==> Closed(rows[k].status);
  }

  lemma PairKeeperOnly(rows: Rows, keeper: EventId, dup: EventId, now: Time, sink: string, k: DispatchId)
    requires keeper != dup && Only(rows, keeper, sink, k) && Vacant(rows, dup, sink)
    ensures var n := MergePair(rows, keeper, dup, now);
      Only(n, keeper, sink, k) && n[k] == rows[k] && Vacant(n, dup, sink)
  {
    PairOrigin(rows, keeper, dup, now, sink);
  }

  lemma PairDuplicateOnly(rows: Rows, keeper: EventId, dup: EventId, now: Time, sink: string, d: DispatchId)
    requires keeper != dup && Vacant(rows, keeper, sink) && Only(rows, dup, sink, d)
    ensures var n := MergePair(rows, keeper, dup, now);
      Only(n, keeper, sink, d) && n[d] == rows[d].(event := keeper) && Vacant(n, dup, sink)
  {
    PairOrigin(rows, keeper, dup, now, sink);
    assert Joins(rows, keeper, dup, d);
  }

  lemma PairNeither(rows: Rows, keeper: EventId, dup: EventId, now: Time, sink: string)
    requires keeper != dup && Vacant(rows, keeper, sink) && Vacant(rows, dup, sink)
    ensures var n := MergePair(rows, keeper, dup, now); Vacant(n, keeper, sink) && Vacant(n, dup, sink)
  {
    PairOrigin(rows, keeper, dup, now, sink);
  }

  /** Per sink: the keeper ends closed if either event was, ends active if either was active and
      neither closed, and the duplicate keeps no active row. */
  lemma MergePairSink(rows: Rows, keeper: EventId, dup: EventId, now: Time, sink: string)
    requires UniqueSinks(rows) && keeper != dup
    ensures var n := MergePair(rows, keeper, dup, now);
      && (SinkClosed(n, keeper, sink) <==> SinkClosed(rows, keeper, sink) || SinkClosed(rows, dup, sink))
      && (SinkActive(n, keeper, sink) <==>
            (SinkActive(rows, keeper, sink) || SinkActive(rows, dup, sink)) && !SinkClosed(n, keeper, sink))
      && !SinkActive(n, dup, sink)
  {
    var n := MergePair(rows, keeper, dup, now);
    ReadSink(rows, keeper, sink);
    ReadSink(rows, dup, sink);
    ReadSink(n, keeper, sink);
    ReadSink(n, dup, sink);
    if k :| At(rows, keeper, sink, k) {
      OnlyOne(rows, keeper, sink, k);
      if d :| At(rows, dup, sink, d) {
        OnlyOne(rows, dup, sink, d);
        PairBoth(rows, keeper, dup, now, sink, k, d);
      } else {
        PairKeeperOnly(rows, keeper, dup, now, sink, k);
      }
    } else if d :| At(rows, dup, sink, d) {
      OnlyOne(rows, dup, sink, d);
      PairDuplicateOnly(rows, keeper, dup, now, sink, d);
    } else {
      PairNeither(rows, keeper, dup, now, sink);
    }
  }

  // -------------------------------------------------------------- one group

  function ResetActive(rows: Rows, e: EventId, now: Time): Rows {
    map d | d in rows :: if rows[d].event == e && Active(rows[d].status) then ResetRow(rows[d], now) else rows[d]
  }

  /** Folds the duplicates, newest first, into the keeper. */
  function MergeGroup(rows: Rows, keeper: EventId, dups: seq<EventId>, now: Time): Rows {
    if dups == [] then rows
    else
      var x := dups[|dups| - 1];
      ResetActive(MergePair(MergeGroup(rows, keeper, dups[..|dups| - 1], now), keeper, x, now), x, now)
  }

  /** The reset after a merge is a no-op: nothing active was left on the duplicate. */
  lemma ResetIsIdle(rows: Rows, keeper: EventId, dup: EventId, now: Time)
    requires UniqueSinks(rows) && keeper != dup
    ensures ResetActive(MergePair(rows, keeper, dup, now), dup, now) == MergePair(rows, keeper, dup, now)
  {
    var n := MergePair(rows, keeper, dup, now);
    forall d | d in n && n[d].event == dup ensures !Active(n[d].status) {
      MergePairSink(rows, keeper, dup, now, n[d].sink);
      assert At(n, dup, n[d].sink, d);
    }
  }

  /** a and b have the same rows for event e. */
  ghost predicate SameEventRows(a: Rows, b: Rows, e: EventId) {
    && (forall d | d in a && a[d].event == e :: d in b && b[d] == a[d])
    && (forall d | d in b && b[d].event == e :: d in a && a[d] == b[d])
  }

  lemma SameEventSinks(a: Rows, b: Rows, e: EventId, sink: string)
    requires SameEventRows(a, b, e)
    ensures SinkClosed(a, e, sink) == SinkClosed(b, e, sink) && SinkActive(a, e, sink) == SinkActive(b, e, sink)
  {
    forall d ensures At(a, e, sink, d) <==> At(b, e, sink, d) {
      if d in a && a[d].event == e { assert b[d] == a[d]; }
      if d in b && b[d].event == e { assert a[d] == b[d]; }
    }
  }

  lemma MergePairOthers(rows: Rows, keeper: EventId, dup: EventId, now: Time, e: EventId)
    requires keeper != dup && e != keeper && e != dup
    ensures SameEventRows(rows, MergePair(rows, keeper, dup, now), e)
  {
  }

  predicate Distinct(keeper: EventId, dups: seq<EventId>) {
    keeper !in dups && forall i, j | 0 <= i < j < |dups| :: dups[i] != dups[j]
  }

  lemma {:induction false} MergeGroupFrame(rows: Rows, keeper: EventId, dups: seq<EventId>, now: Time, e: EventId)
    requires UniqueSinks(rows) && Distinct(keeper, dups)
    ensures UniqueSinks(MergeGroup(rows, keeper, dups, now))
    ensures e != keeper && e !in dups ==> SameEventRows(rows, MergeGroup(rows, keeper, dups, now), e)
  {
    if dups != [] {
      var (init, x) := (dups[..|dups| - 1], dups[|dups| - 1]);
      MergeGroupFrame(rows, keeper, init, now, e);
      var m := MergeGroup(rows, keeper, init, now);
      ResetIsIdle(m, keeper, x, now);
      MergePairUnique(m, keeper, x, now);
      if e != keeper && e !in dups { MergePairOthers(m, keeper, x, now, e); }
    }
  }

  ghost predicate GroupClosed(rows: Rows, keeper: EventId, dups: seq<EventId>, sink: string) {
    SinkClosed(rows, keeper, sink) || exists i | 0 <= i < |dups| :: SinkClosed(rows, dups[i], sink)
  }

  ghost predicate GroupActive(rows: Rows, keeper: EventId, dups: seq<EventId>, sink: string) {
    SinkActive(rows, keeper, sink) || exists i | 0 <= i < |dups| :: SinkActive(rows, dups[i], sink)
  }

  /** What repairing a group means for one sink: closed work anywhere closes the keeper's sink and ends
      the group's work there; otherwise work anywhere survives as the keeper's single active row. */
  ghost predicate SinkRepaired(a: Rows, b: Rows, keeper: EventId, dups: seq<EventId>, sink: string) {
    && (SinkClosed(b, keeper, sink) <==> GroupClosed(a, keeper, dups, sink))
    && (SinkActive(b, keeper, sink) <==> GroupActive(a, keeper, dups, sink) && !GroupClosed(a, keeper, dups, sink))
    && forall i | 0 <= i < |dups| :: !SinkActive(b, dups[i], sink)
  }

  lemma {:induction false} GroupRepaired(rows: Rows, keeper: EventId, dups: seq<EventId>, now: Time, sink: string)
    requires UniqueSinks(rows) && Distinct(keeper, dups)
    ensures SinkRepaired(rows, MergeGroup(rows, keeper, dups, now), keeper, dups, sink)
  {
    if dups == [] {
      OneRowPerSink(rows, keeper, sink);
    } else {
      var (init, x) := (dups[..|dups| - 1], dups[|dups| - 1]);
      var m := MergeGroup(rows, keeper, init, now);
      var n := MergePair(m, keeper, x, now);
      GroupRepaired(rows, keeper, init, now, sink);
      MergeGroupFrame(rows, keeper, init, now, x);
      SameEventSinks(rows, m, x, sink);
      MergePairSink(m, keeper, x, now, sink);
      ResetIsIdle(m, keeper, x, now);
      assert dups == init + [x];
      assert GroupClosed(rows, keeper, dups, sink) <==>
        GroupClosed(rows, keeper, init, sink) || SinkClosed(rows, x, sink);
      assert GroupActive(rows, keeper, dups, sink) <==>
        GroupActive(rows, keeper, init, sink) || SinkActive(rows, x, sink);
      forall i | 0 <= i < |dups| ensures !SinkActive(n, dups[i], sink) {
        if i < |init| {
          assert init[i] == dups[i];
          MergePairOthers(m, keeper, x, now, dups[i]);
          SameEventSinks(m, n, dups[i], sink);
        }
      }
    }
  }

  // ----------------------------------------------------- which row survives

  predicate Contender(rows: Rows, keeper: EventId, dups: seq<EventId>, sink: string, d: DispatchId) {
    d in rows && rows[d].sink == sink && (rows[d].event == keeper || rows[d].event in dups)
  }

  ghost predicate BestOf(rows: Rows, keeper: EventId, dups: seq<EventId>, sink: string, b: DispatchId) {
    && Contender(rows, keeper, dups, sink, b)
    && forall d | Contender(rows, keeper, dups, sink, d) && d != b :: Better(rows[b], b, rows[d], d)
  }

  ghost predicate NoContender(rows: Rows, keeper: EventId, dups: seq<EventId>, sink: string) {
    forall d :: !Contender(rows, keeper, dups, sink, d)
  }

  lemma ContenderSnoc(rows: Rows, keeper: EventId, init: seq<EventId>, x: EventId, sink: string, d: DispatchId)
    ensures Contender(rows, keeper, init + [x], sink, d) <==>
      Contender(rows, keeper, init, sink, d) || At(rows, x, sink, d)
  {
  }

  lemma ContenderOpen(rows: Rows, keeper: EventId, dups: seq<EventId>, sink: string, d: DispatchId)
    requires !GroupClosed(rows, keeper, dups, sink) && Contender(rows, keeper, dups, sink, d)
    ensures !Closed(rows[d].status)
  {
    if rows[d].event in dups {
      var i :| 0 <= i < |dups| && dups[i] == rows[d].event;
      assert At(rows, dups[i], sink, d) && !SinkClosed(rows, dups[i], sink);
    } else {
      assert At(rows, keeper, sink, d);
    }
  }

  lemma OpenPrefix(rows: Rows, keeper: EventId, init: seq<EventId>, x: EventId, sink: string)
    requires !GroupClosed(rows, keeper, init + [x], sink)
    ensures !GroupClosed(rows, keeper, init, sink)
  {
    forall i | 0 <= i < |init| ensures !SinkClosed(rows, init[i], sink) {
      assert (init + [x])[i] == init[i];
    }
  }

  /** The group before its last duplicate, and that duplicate's own rows, which are still untouched. */
  lemma GroupStep(rows: Rows, keeper: EventId, init: seq<EventId>, x: EventId, now: Time, sink: string)
    requires UniqueSinks(rows) && Distinct(keeper, init + [x])
    ensures var m := MergeGroup(rows, keeper, init, now);
      && Distinct(keeper, init) && keeper != x && UniqueSinks(m)
      && MergeGroup(rows, keeper, init + [x], now) == MergePair(m, keeper, x, now)
      && (forall d :: At(m, x, sink, d) <==> At(rows, x, sink, d))
      && (forall d | d in m && At(m, x, sink, d) :: d in rows && m[d] == rows[d])
  {
    var dups := init + [x];
    assert dups[..|dups| - 1] == init;
    assert forall i | 0 <= i < |init| :: dups[i] == init[i];
    assert x !in init by { assert dups[|init|] == x; }
    MergeGroupFrame(rows, keeper, init, now, x);
    var m := MergeGroup(rows, keeper, init, now);
    ResetIsIdle(m, keeper, x, now);
    forall d ensures At(m, x, sink, d) <==> At(rows, x, sink, d) {
      if d in m && m[d].event == x { assert rows[d] == m[d]; }
      if d in rows && rows[d].event == x { assert m[d] == rows[d]; }
    }
  }

  lemma {:induction false} GroupVacant(rows: Rows, keeper: EventId, dups: seq<EventId>, now: Time, sink: string)
    requires UniqueSinks(rows) && Distinct(keeper, dups) && NoContender(rows, keeper, dups, sink)
    ensures Vacant(MergeGroup(rows, keeper, dups, now), keeper, sink)
  {
    if dups == [] {
      assert forall d | At(rows, keeper, sink, d) :: Contender(rows, keeper, dups, sink, d);
    } else {
      var (init, x) := (dups[..|dups| - 1], dups[|dups| - 1]);
      assert dups == init + [x];
      forall d ensures !Contender(rows, keeper, init, sink, d)
        && !At(rows, x, sink, d) { ContenderSnoc(rows, keeper, init, x, sink, d); }
      GroupStep(rows, keeper, init, x, now, sink);
      GroupVacant(rows, keeper, init, now, sink);
      PairNeither(MergeGroup(rows, keeper, init, now), keeper, x, now, sink);
    }
  }

  /** The better of the best so far and one more row is the best of all. */
  lemma BestSnoc(rows: Rows, keeper: EventId, init: seq<EventId>, x: EventId, sink: string, b: DispatchId,
        d: DispatchId)
    requires BestOf(rows, keeper, init, sink, b) && Only(rows, x, sink, d) && b != d
    requires !GroupClosed(rows, keeper, init + [x], sink)
    ensures BestOf(rows, keeper, init + [x], sink, if Better(rows[d], d, rows[b], b) then d else b)
  {
    forall c ensures Contender(rows, keeper, init + [x], sink, c) <==>
      Contender(rows, keeper, init, sink, c) || c == d {
      ContenderSnoc(rows, keeper, init, x, sink, c);
    }
    forall c | Contender(rows, keeper, init + [x], sink, c)
      ensures Better(rows[d], d, rows[b], b) && c != d ==> Better(rows[d], d, rows[c], c)
      ensures !Better(rows[d], d, rows[b], b) && c != b ==> Better(rows[b], b, rows[c], c)
    {
      ContenderOpen(rows, keeper, init + [x], sink, b);
      ContenderOpen(rows, keeper, init + [x], sink, c);
      ContenderOpen(rows, keeper, init + [x], sink, d);
      BetterIsTotalOrder(rows[d], d, rows[b], b, rows[c], c);
    }
  }

  lemma KeepsBetter(rows: Rows, m: Rows, keeper: EventId, init: seq<EventId>, x: EventId, now: Time,
                    sink: string, b: DispatchId) returns (c: DispatchId)
    requires BestOf(rows, keeper, init, sink, b) && Only(m, keeper, sink, b) && m[b] == rows[b].(event := keeper)
    requires keeper != x && UniqueSinks(m) && !GroupClosed(rows, keeper, init + [x], sink)
    requires (forall d :: At(m, x, sink, d) <==> At(rows, x, sink, d)) && forall d | d in m && At(m, x, sink, d) ::
      d in rows && m[d] == rows[d]
    ensures BestOf(rows, keeper, init + [x], sink, c)
    ensures var n := MergePair(m, keeper, x, now); Only(n, keeper, sink, c) && n[c] == rows[c].(event := keeper)
  {
    if d :| d in m && At(m, x, sink, d) {
      OnlyOne(m, x, sink, d);
      PairBoth(m, keeper, x, now, sink, b, d);
      BestSnoc(rows, keeper, init, x, sink, b, d);
      c := if Better(rows[d], d, rows[b], b) then d else b;
    } else {
      PairKeeperOnly(m, keeper, x, now, sink, b);
      forall d ensures Contender(rows, keeper, init + [x], sink, d) <==>
        Contender(rows, keeper, init, sink, d) { ContenderSnoc(rows, keeper, init, x, sink, d); }
      c := b;
    }
  }

  lemma {:induction false} KeepsBestStep(rows: Rows, keeper: EventId, init: seq<EventId>, x: EventId, now: Time,
        sink: string) returns (b: DispatchId)
    requires UniqueSinks(rows) && Distinct(keeper, init + [x])
    requires !GroupClosed(rows, keeper, init + [x], sink) && !NoContender(rows, keeper, init + [x], sink)
    ensures BestOf(rows, keeper, init + [x], sink, b)
    ensures var n := MergeGroup(rows, keeper, init + [x], now);
      Only(n, keeper, sink, b) && n[b] == rows[b].(event := keeper)
    decreases |init| + 1, 0
  {
    var m := MergeGroup(rows, keeper, init, now);
    GroupStep(rows, keeper, init, x, now, sink);
    OpenPrefix(rows, keeper, init, x, sink);
    if NoContender(rows, keeper, init, sink) {
      b :| Contender(rows, keeper, init + [x], sink, b);
      GroupVacant(rows, keeper, init, now, sink);
      ContenderSnoc(rows, keeper, init, x, sink, b);
      OnlyOne(m, x, sink, b);
      PairDuplicateOnly(m, keeper, x, now, sink, b);
      forall c | Contender(rows, keeper, init + [x], sink, c)
        ensures c == b
      {
        ContenderSnoc(rows, keeper, init, x, sink, c);
      }
    } else {
      b := GroupKeepsBest(rows, keeper, init, now, sink);
      b := KeepsBetter(rows, m, keeper, init, x, now, sink, b);
    }
  }

  /** Where no row of the group is closed, the keeper ends with exactly one row for the sink: the best
      row of the whole group, verbatim but for its event - so a claim in flight goes on as it was. */
  lemma {:induction false} GroupKeepsBest(rows: Rows, keeper: EventId, dups: seq<EventId>, now: Time, sink: string)
      returns (b: DispatchId)
    requires UniqueSinks(rows) && Distinct(keeper, dups)
    requires !GroupClosed(rows, keeper, dups, sink) && !NoContender(rows, keeper, dups, sink)
    ensures BestOf(rows, keeper, dups, sink, b)
    ensures var n := MergeGroup(rows, keeper, dups, now); Only(n, keeper, sink, b) && n[b] == rows[b].(event := keeper)
    decreases |dups|, 1
  {
    if dups == [] {
      b :| Contender(rows, keeper, dups, sink, b);
      assert forall d | Contender(rows, keeper, dups, sink, d) :: At(rows, keeper, sink, d);
      OnlyOne(rows, keeper, sink, b);
    } else {
      var (init, x) := (dups[..|dups| - 1], dups[|dups| - 1]);
      assert dups == init + [x];
      OpenPrefix(rows, keeper, init, x, sink);
      GroupStep(rows, keeper, init, x, now, sink);
      b := KeepsBestStep(rows, keeper, init, x, now, sink);
    }
  }

  // ------------------------------------------------- the ranking in plain terms

  predicate Served(d: Dispatch) {
    d.status == Delivered || d.status == Skipped
  }

  ghost predicate SomeWith(rows: Rows, keeper: EventId, dups: seq<EventId>, sink: string, s: DispatchStatus) {
    exists d :: Contender(rows, keeper, dups, sink, d) && rows[d].status == s
  }

  /** k is served if any row of the group for the sink is. Otherwise a claim in flight goes before waiting
      work, that before a dead letter and that before all else; then the row written last, and of those
      the one with the highest id. */
  ghost predicate Preferred(rows: Rows, keeper: EventId, dups: seq<EventId>, sink: string, k: DispatchId) {
    && Contender(rows, keeper, dups, sink, k)
    && if exists d :: Contender(rows, keeper, dups, sink, d) && Served(rows[d]) then Served(rows[k])
      else
        && (if SomeWith(rows, keeper, dups, sink, InFlight) then rows[k].status == InFlight
            else if SomeWith(rows, keeper, dups, sink, Pending) then rows[k].status == Pending
            else if SomeWith(rows, keeper, dups, sink, DeadLettered) then rows[k].status == DeadLettered
            else true)
        && forall d: DispatchId |
          Contender(rows, keeper, dups, sink, d) && d != k && rows[d].status == rows[k].status ::
          rows[d].updatedAt < rows[k].updatedAt || (rows[d].updatedAt == rows[k].updatedAt && d < k)
  }

  /** If the group has any row for the sink, the keeper ends with exactly one: the preferred one, as it was
      but for its event. */
  ghost predicate Survives(a: Rows, b: Rows, keeper: EventId, dups: seq<EventId>, sink: string) {
    NoContender(a, keeper, dups, sink) ||
    exists k :: Preferred(a, keeper, dups, sink, k) && Only(b, keeper, sink, k) && b[k] == a[k].(event := keeper)
  }

  lemma ServedClosesGroup(rows: Rows, keeper: EventId, dups: seq<EventId>, sink: string)
    ensures GroupClosed(rows, keeper, dups, sink) <==>
      exists d :: Contender(rows, keeper, dups, sink, d) && Served(rows[d])
  {
    if d :| Contender(rows, keeper, dups, sink, d) && Served(rows[d]) {
      assert SinkClosed(rows, rows[d].event, sink);
      if rows[d].event != keeper { var i :| 0 <= i < |dups| && dups[i] == rows[d].event; }
    }
    if GroupClosed(rows, keeper, dups, sink) {
      var e: EventId :| (e == keeper || e in dups) && SinkClosed(rows, e, sink);
      ClosedRow(rows, e, sink);
      var d :| d in rows && At(rows, e, sink, d) && Closed(rows[d].status);
      assert Contender(rows, keeper, dups, sink, d) && Served(rows[d]);
    }
  }

  lemma BestIsPreferred(rows: Rows, keeper: EventId, dups: seq<EventId>, sink: string, b: DispatchId)
    requires BestOf(rows, keeper, dups, sink, b) && !GroupClosed(rows, keeper, dups, sink)
    ensures Preferred(rows, keeper, dups, sink, b)
  {
    ServedClosesGroup(rows, keeper, dups, sink);
    forall d | Contender(rows, keeper, dups, sink, d) && d != b
      ensures !Closed(rows[d].status) && !Closed(rows[b].status) && Better(rows[b], b, rows[d], d)
    {
      ContenderOpen(rows, keeper, dups, sink, d);
      ContenderOpen(rows, keeper, dups, sink, b);
    }
  }

  /** Whatever row the keeper ends with was one of the group's for that sink, and is as it was. */
  lemma {:induction false} KeeperRowOrigin(rows: Rows, keeper: EventId, dups: seq<EventId>, now: Time, sink: string,
        k: DispatchId)
    requires UniqueSinks(rows) && Distinct(keeper, dups)
    requires At(MergeGroup(rows, keeper, dups, now), keeper, sink, k)
    ensures Contender(rows, keeper, dups, sink, k)
    ensures MergeGroup(rows, keeper, dups, now)[k] == rows[k].(event := keeper)
  {
    if dups != [] {
      var (init, x) := (dups[..|dups| - 1], dups[|dups| - 1]);
      assert dups == init + [x];
      GroupStep(rows, keeper, init, x, now, sink);
      var m := MergeGroup(rows, keeper, init, now);
      ContenderSnoc(rows, keeper, init, x, sink, k);
      if m[k].event == keeper {
        KeeperRowOrigin(rows, keeper, init, now, sink, k);
      } else {
        assert At(m, x, sink, k);
      }
    }
  }

  /** The row that survives a repair, sink by sink. */
  lemma GroupSurvivor(rows: Rows, keeper: EventId, dups: seq<EventId>, now: Time, sink: string)
    requires UniqueSinks(rows) && Distinct(keeper, dups)
    ensures Survives(rows, MergeGroup(rows, keeper, dups, now), keeper, dups, sink)
  {
    var n := MergeGroup(rows, keeper, dups, now);
    ServedClosesGroup(rows, keeper, dups, sink);
    if GroupClosed(rows, keeper, dups, sink) {
      GroupRepaired(rows, keeper, dups, now, sink);
      MergeGroupFrame(rows, keeper, dups, now, keeper);
      var k :| k in n && n[k].event == keeper && n[k].sink == sink && Closed(n[k].status);
      OnlyOne(n, keeper, sink, k);
      KeeperRowOrigin(rows, keeper, dups, now, sink, k);
      assert Preferred(rows, keeper, dups, sink, k);
    } else if !NoContender(rows, keeper, dups, sink) {
      var b := GroupKeepsBest(rows, keeper, dups, now, sink);
      BestIsPreferred(rows, keeper, dups, sink, b);
    }
  }

  lemma PairSurvivor(rows: Rows, keeper: EventId, dup: EventId, now: Time, sink: string)
    requires UniqueSinks(rows) && keeper != dup
    ensures Survives(rows, MergePair(rows, keeper, dup, now), keeper, [dup], sink)
  {
    assert [dup][..0] == [] && MergeGroup(rows, keeper, [], now) == rows;
    ResetIsIdle(rows, keeper, dup, now);
    GroupSurvivor(rows, keeper, [dup], now, sink);
  }
}
