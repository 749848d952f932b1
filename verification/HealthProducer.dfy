/** The stored health_alert_states row, updated one observation at a time, and the events it emits. */
module HealthProducer {
  import opened Options
  import opened HealthDebounce

  /** Empty time columns are None; an empty observation identity is the empty set. */
  datatype Row = Row(
    stable: Health, candidate: Health, samples: nat, started: Option<Time>, seen: set<Status>,
    failure: Option<Time>, incarnation: string)

  /** The row that belongs after a history, read off the history alone. */
  ghost function RowAfter(c: Config, h: seq<Observation>): Option<Row> {
    if h == [] then None
    else
      var n := |h| - 1;
      var stable := Stable(c, h, n);
      var rollup := RollupOf(h[n]);
      var failure := if Quiet(c, h, n) then None else Some(h[TroubleStart(c, h, n)].at);
      if stable == rollup then Some(Row(stable, rollup, 0, None, {}, failure, h[n].incarnation))
      else
        var m := RunStart(h, n);
        Some(Row(stable, rollup, Samples(h, m, n), Some(h[m].at), IdOf(h[n]), failure, h[n].incarnation))
  }

  // ---- One more observation does not change what earlier ones meant ----

  lemma {:induction false} RunPrefix(h: seq<Observation>, o: Observation, n: nat)
    requires n < |h|
    ensures RunStart(h + [o], n) == RunStart(h, n)
    ensures Samples(h + [o], RunStart(h, n), n) == Samples(h, RunStart(h, n), n)
  {
    assert (h + [o])[n] == h[n] && (n > 0 ==> (h + [o])[n - 1] == h[n - 1]);
    if RunStart(h, n) < n { RunPrefix(h, o, n - 1); }
  }

  lemma {:induction false} StablePrefix(c: Config, h: seq<Observation>, o: Observation, n: nat)
    requires n < |h|
    ensures Stable(c, h + [o], n) == Stable(c, h, n)
  {
    RunPrefix(h, o, n);
    if n > 0 { StablePrefix(c, h, o, n - 1); }
  }

  lemma {:induction false} TroublePrefix(c: Config, h: seq<Observation>, o: Observation, n: nat)
    requires n < |h|
    ensures TroubleStart(c, h + [o], n) == TroubleStart(c, h, n)
  {
    if n > 0 {
      StablePrefix(c, h, o, n - 1);
      TroublePrefix(c, h, o, n - 1);
    }
  }

  lemma KeyPrefix(c: Config, service: string, h: seq<Observation>, o: Observation, n: nat)
    requires n < |h| && Edge(c, h, n)
    ensures Edge(c, h + [o], n) && EdgeKey(c, service, h + [o], n) == EdgeKey(c, service, h, n)
  {
    StablePrefix(c, h, o, n);
    StablePrefix(c, h, o, n - 1);
    RunPrefix(h, o, n);
    TroublePrefix(c, h, o, n - 1);
  }

  // ---- The row after one more observation ----

  /** The failure start is empty exactly when stable and candidate health are both healthy, and the
      candidate's start exactly when they are the same. */
  lemma RowTimes(c: Config, h: seq<Observation>)
    requires h != []
    ensures var r := RowAfter(c, h).value;
      && (r.failure == None <==> r.stable == Healthy && r.candidate == Healthy)
      && (r.candidate != r.stable <==> r.started.Some?)
  {
  }

  lemma RowFirst(c: Config, h: seq<Observation>, o: Observation)
    requires h == [] || h[|h| - 1].incarnation != o.incarnation
    ensures RowAfter(c, h + [o]) ==
      Some(Row(
        RollupOf(o), RollupOf(o), 0, None, {},
        if RollupOf(o) != Healthy then Some(o.at) else None,
        o.incarnation))
    ensures !Edge(c, h + [o], |h|)
  {
    assert FirstOfIncarnation(h + [o], |h|);
  }

  /** What the new observation means, in terms of the history before it. */
  lemma NextObservation(c: Config, h: seq<Observation>, o: Observation)
    requires h != [] && h[|h| - 1].incarnation == o.incarnation
    ensures var (g, n) := (h + [o], |h|);
      var same := RollupOf(h[n - 1]) == RollupOf(o);
      && !FirstOfIncarnation(g, n)
      && RunStart(g, n) == (if same then RunStart(h, n - 1) else n)
      && Samples(g, RunStart(g, n), n) == (if same
        then Samples(h, RunStart(h, n - 1), n - 1) + (if IdOf(o) != IdOf(h[n - 1]) then 1 else 0) else 1)
      && Stable(c, g, n - 1) == Stable(c, h, n - 1)
      && Stable(c, g, n) == (if Confirmed(c, g, n) then RollupOf(o) else Stable(c, h, n - 1))
      && TroubleStart(c, g, n) == (if Quiet(c, h, n - 1) then n else TroubleStart(c, h, n - 1))
  {
    RunPrefix(h, o, |h| - 1);
    StablePrefix(c, h, o, |h| - 1);
    TroublePrefix(c, h, o, |h| - 1);
  }

  lemma RowReturns(c: Config, h: seq<Observation>, o: Observation)
    requires h != [] && h[|h| - 1].incarnation == o.incarnation && RowAfter(c, h).value.stable == RollupOf(o)
    ensures var r := RowAfter(c, h).value;
      RowAfter(c, h + [o]) == Some(Row(r.stable, r.stable, 0, None, {}, if r.stable == Healthy then None
        else r.failure, o.incarnation))
    ensures !Edge(c, h + [o], |h|)
  {
    NextObservation(c, h, o);
  }

  /** The candidate after an observation that is not the stable health. */
  function Candidate(r: Row, o: Observation): Row {
    var rollup := RollupOf(o);
    var moved := if r.candidate == rollup then
                   if r.seen != IdOf(o) then r.(samples := r.samples + 1, seen := IdOf(o)) else r
                 else r.(candidate := rollup, samples := 1, seen := IdOf(o), started := Some(o.at));
    if r.failure == None && rollup != Healthy then moved.(failure := Some(o.at)) else moved
  }

  predicate Passes(c: Config, r: Row, o: Observation) {
    r.samples >= c.stabilitySamples && r.started.Some? && LongEnough(c, r.started.value, o.at)
  }

  /** Samples and start of the candidate are those of the run in the history. */
  lemma CandidateIsRun(c: Config, h: seq<Observation>, o: Observation)
    requires h != [] && h[|h| - 1].incarnation == o.incarnation && RowAfter(c, h).value.stable != RollupOf(o)
    ensures var (q, g, n) := (Candidate(RowAfter(c, h).value, o), h + [o], |h|);
      && q.candidate == RollupOf(o) && q.stable == Stable(c, h, n - 1) && q.seen == IdOf(o)
      && q.samples == Samples(g, RunStart(g, n), n) && q.started == Some(g[RunStart(g, n)].at)
      && (Passes(c, q, o) <==> Confirmed(c, g, n))
  {
    NextObservation(c, h, o);
  }

  /** Evaluating the same check results again neither adds a sample nor restarts the candidate. */
  lemma ReevaluationAddsNothing(c: Config, h: seq<Observation>, o: Observation)
    requires h != [] && h[|h| - 1].incarnation == o.incarnation && IdOf(h[|h| - 1]) == IdOf(o)
    requires RowAfter(c, h).value.stable != RollupOf(o)
    ensures RollupOf(o) == RollupOf(h[|h| - 1])
    ensures Candidate(RowAfter(c, h).value, o) == RowAfter(c, h).value
  {
    var last := h[|h| - 1];
    assert forall s :: s in o.statuses <==> s in IdOf(o);
    assert forall s :: s in last.statuses <==> s in IdOf(last);
    assert Applicable(o.statuses) == Applicable(last.statuses);
  }

  lemma CandidateFailure(c: Config, h: seq<Observation>, o: Observation)
    requires h != [] && h[|h| - 1].incarnation == o.incarnation && RowAfter(c, h).value.stable != RollupOf(o)
    ensures var (q, g, n) := (Candidate(RowAfter(c, h).value, o), h + [o], |h|);
      && q.failure == Some(g[TroubleStart(c, g, n)].at)
      && (RollupOf(o) == Healthy ==> TroubleStart(c, g, n) == TroubleStart(c, h, n - 1) && TroubleStart(c, g, n) < n)
  {
    NextObservation(c, h, o);
  }

  lemma RowWaits(c: Config, h: seq<Observation>, o: Observation)
    requires h != [] && h[|h| - 1].incarnation == o.incarnation && RowAfter(c, h).value.stable != RollupOf(o)
    requires !Passes(c, Candidate(RowAfter(c, h).value, o), o)
    ensures RowAfter(c, h + [o]) == Some(Candidate(RowAfter(c, h).value, o)) && !Edge(c, h + [o], |h|)
  {
    NextObservation(c, h, o);
    CandidateIsRun(c, h, o);
    CandidateFailure(c, h, o);
  }

  lemma RowChanges(c: Config, h: seq<Observation>, o: Observation)
    requires h != [] && h[|h| - 1].incarnation == o.incarnation && RowAfter(c, h).value.stable != RollupOf(o)
    requires Passes(c, Candidate(RowAfter(c, h).value, o), o)
    ensures var q := Candidate(RowAfter(c, h).value, o);
      && Edge(c, h + [o], |h|)
      && RowAfter(c, h + [o]) == Some(Row(
        q.candidate, q.candidate, 0, None, {},
        if q.candidate == Healthy then None else q.failure,
        o.incarnation))
  {
    NextObservation(c, h, o);
    CandidateIsRun(c, h, o);
    CandidateFailure(c, h, o);
  }

  /** The key built from the row is the one the history calls for. */
  lemma KeyOfRow(c: Config, service: string, h: seq<Observation>, o: Observation)
    requires h != [] && h[|h| - 1].incarnation == o.incarnation && RowAfter(c, h).value.stable != RollupOf(o)
    requires Edge(c, h + [o], |h|)
    ensures var q := Candidate(RowAfter(c, h).value, o);
      && q.failure.Some? && q.started.Some?
      && EdgeKey(c, service, h + [o], |h|) == Key(
        service, q.stable, q.candidate,
        if q.candidate == Healthy then q.failure.value else q.started.value)
  {
    NextObservation(c, h, o);
    CandidateIsRun(c, h, o);
    CandidateFailure(c, h, o);
    TroublePrefix(c, h, o, |h| - 1);
  }

  // ---- The producer ----

  /** The outbox refuses, stores the event, or keeps an earlier one instead: a pending event under the
      same key, or one whose cooldown still runs. */
  datatype Reply = Refused | Inserted | Kept(stored: Key)

  datatype Outcome = Committed(edge: Option<Key>) | Failed | EdgeNotPersisted

  /** The observation differs from the stored stable health of the same incarnation. */
  predicate Departs(row: Option<Row>, o: Observation) {
    row.Some? && row.value.incarnation == o.incarnation && row.value.stable != RollupOf(o)
  }

  /** What is reported leads from the stored stable health to the observed one. With increasing times, a
      rollup that differs from the stored one and has lasted is reported and stored, unless the outbox
      refuses. */
  predicate Reported(c: Config, service: string, before: Option<Row>, after: Option<Row>, h: seq<Observation>,
        reply: Reply, outcome: Outcome)
    requires h != []
  {
    var o := h[|h| - 1];
    && (outcome.Committed? && outcome.edge.Some? ==>
      before.Some? && outcome.edge.value.service == service
        && outcome.edge.value.from == before.value.stable && outcome.edge.value.to == RollupOf(o))
    && (Departs(before, o) && Lasts(c, h, |h| - 1) && Increasing(h) ==>
      if reply.Refused? then outcome.Failed?
      else outcome.Committed? && outcome.edge.Some? && after.Some? && after.value.stable == RollupOf(o))
  }

  lemma {:induction false} LastingIsEdge(c: Config, h: seq<Observation>, o: Observation)
    requires Departs(RowAfter(c, h), o) && Lasts(c, h + [o], |h|)
    ensures Edge(c, h + [o], |h|) && RowAfter(c, h + [o]).value.stable == RollupOf(o)
  {
    var g := h + [o];
    LastingIsStable(c, g, |h|);
    StablePrefix(c, h, o, |h| - 1);
    assert g[|h| - 1] == h[|h| - 1] && g[|h|] == o;
  }

  lemma EdgeFrom(c: Config, service: string, h: seq<Observation>, o: Observation)
    requires Edge(c, h + [o], |h|)
    ensures h != [] && var key := EdgeKey(c, service, h + [o], |h|);
      key.service == service && key.from == RowAfter(c, h).value.stable && key.to == RollupOf(o)
  {
    StablePrefix(c, h, o, |h| - 1);
  }

  lemma ChangeIsReported(c: Config, service: string, h: seq<Observation>, o: Observation, after: Option<Row>,
        reply: Reply, outcome: Outcome)
    requires outcome.Committed? ==>
      after == RowAfter(c, h + [o]) && (outcome.edge.Some? <==> Edge(c, h + [o], |h|))
    requires outcome.Committed? && outcome.edge.Some? ==>
      outcome.edge.value == EdgeKey(c, service, h + [o], |h|) && !reply.Refused?
    requires (outcome.Failed? ==> reply.Refused?) && (outcome.EdgeNotPersisted? ==> !Increasing(h + [o]))
    ensures Reported(c, service, RowAfter(c, h), after, h + [o], reply, outcome)
  {
    if outcome.Committed? && outcome.edge.Some? { EdgeFrom(c, service, h, o); }
    if Departs(RowAfter(c, h), o) && Lasts(c, h + [o], |h|) { LastingIsEdge(c, h, o); }
  }

  class Producer {
    const config: Config
    const service: string
    var row: Option<Row>
    /** Keys of the events this producer has put into the outbox. */
    var sent: set<Key>
    /** The observations whose transaction committed. */
    ghost var history: seq<Observation>

    ghost predicate Sent(k: Key) reads this {
      exists n | 0 <= n < |history| :: Edge(config, history, n) && EdgeKey(config, service, history, n) == k
    }

    ghost predicate Valid() reads this {
      Normal(config) && row == RowAfter(config, history) && forall k | k in sent :: Sent(k)
    }

    constructor (config: Config, service: string)
      requires Normal(config)
      ensures Valid() && history == [] && this.config == config && this.service == service
    {
      this.config, this.service := config, service;
      row, sent, history := None, {}, [];
    }

    /** Keys sent before are still keys of the longer history. */
    twostate lemma StillSent(o: Observation)
      requires old(Valid()) && history == old(history) + [o]
      ensures forall k | k in old(sent) :: Sent(k)
    {
      forall k | k in old(sent) ensures Sent(k) {
        assert old(Sent(k));
        var n: nat :| n < |old(history)| && Edge(config, old(history), n)
          && EdgeKey(config, service, old(history), n) == k;
        KeyPrefix(config, service, old(history), o, n);
      }
    }

    /** Commits the observation with its row. */
    method Commit(o: Observation, next: Row)
      requires Valid() && RowAfter(config, history + [o]) == Some(next)
      modifies this`row, this`history
      ensures Valid() && history == old(history) + [o] && row == Some(next)
    {
      row, history := Some(next), history + [o];
      StillSent(o);
    }

    /** A committed observation joins the history and reports an edge exactly when the stable health
        changes, under the key of that change; any other outcome leaves everything as it was, and with
        increasing observation times the only other outcome is a refusal by the outbox. */
    twostate predicate Evaluated(o: Observation, reply: Reply, outcome: Outcome) reads this {
      && (outcome.Committed? ==> history == old(history) + [o])
      && (outcome.Committed? ==> (outcome.edge.Some? <==> Edge(config, history, |history| - 1)))
      && (outcome.Committed? && outcome.edge.Some? ==>
        outcome.edge.value == EdgeKey(config, service, history, |history| - 1))
      && (!outcome.Committed? ==> history == old(history) && row == old(row) && sent == old(sent))
      && (outcome.Failed? ==> reply.Refused?)
      && (outcome.EdgeNotPersisted? ==> reply.Kept?)
      && (outcome.Committed? && outcome.edge.Some? ==> !reply.Refused? && reply != Kept(outcome.edge.value))
      && (outcome.Committed? ==>
        sent == if outcome.edge.Some? && reply.Inserted? then old(sent) + {outcome.edge.value} else old(sent))
      && (Increasing(old(history) + [o]) ==> !outcome.EdgeNotPersisted?)
    }

    /** The first observation of an incarnation is silent, even if failing. */
    method StartRow(o: Observation, rollup: Health, ghost reply: Reply)
      requires Valid() && rollup == RollupOf(o) && (row == None || row.value.incarnation != o.incarnation)
      modifies this`row, this`history
      ensures Valid() && Evaluated(o, reply, Committed(None))
    {
      RowFirst(config, history, o);
      Commit(o, Row(rollup, rollup, 0, None, {}, if rollup != Healthy then Some(o.at) else None, o.incarnation));
    }

    /** A candidate that returns to the stable health is abandoned. */
    method DropCandidate(o: Observation, rollup: Health, ghost reply: Reply)
      requires Valid() && row.Some? && row.value.incarnation == o.incarnation
      requires rollup == RollupOf(o) == row.value.stable
      modifies this`row, this`history
      ensures Valid() && Evaluated(o, reply, Committed(None))
    {
      var r := row.value;
      RowReturns(config, history, o);
      Commit(o, Row(r.stable, r.stable, 0, None, {}, if r.stable == Healthy then None else r.failure, o.incarnation));
    }

    method UpdateCandidate(row: Row, o: Observation, rollup: Health) returns (r: Row)
      requires rollup == RollupOf(o)
      ensures r == Candidate(row, o)
    {
      r := row;
      if r.candidate == rollup {
        if r.seen != IdOf(o) { r := r.(samples := r.samples + 1, seen := IdOf(o)); }
      } else {
        r := r.(candidate := rollup, samples := 1, seen := IdOf(o), started := Some(o.at));
      }
      if r.failure == None && rollup != Healthy { r := r.(failure := Some(o.at)); }
    }

    /** The event went out or was suppressed, and the new stable health commits with it. */
    method CommitEdge(o: Observation, r: Row, key: Key, reply: Reply)
      requires Valid() && row.Some? && row.value.incarnation == o.incarnation && RollupOf(o) != row.value.stable
      requires r == Candidate(row.value, o) && Passes(config, r, o)
      requires Edge(config, history + [o], |history|) && key == EdgeKey(config, service, history + [o], |history|)
      requires !reply.Refused? && reply != Kept(key)
      modifies this
      ensures Valid() && Evaluated(o, reply, Committed(Some(key)))
    {
      RowChanges(config, history, o);
      var failure := if r.candidate == Healthy then None else r.failure;
      Commit(o, Row(r.candidate, r.candidate, 0, None, {}, failure, o.incarnation));
      if reply.Inserted? { sent := sent + {key}; }
    }

    /** The key of a confirmed candidate, from the row. The fallback to the observation time is never needed. */
    method BuildKey(o: Observation, r: Row) returns (key: Key)
      requires Valid() && row.Some? && row.value.incarnation == o.incarnation && RollupOf(o) != row.value.stable
      requires r == Candidate(row.value, o) && Passes(config, r, o)
      ensures Edge(config, history + [o], |history|) && key == EdgeKey(config, service, history + [o], |history|)
    {
      RowChanges(config, history, o);
      KeyOfRow(config, service, history, o);
      var occurrence := if r.candidate == Healthy then r.failure else r.started;
      assert occurrence.Some?;
      key := Key(service, r.stable, r.candidate, occurrence.value);
    }

    /** A key that was sent before can only come back if observation times do not increase. */
    lemma RepeatedKey(o: Observation, k: Key)
      requires Valid() && k in sent && Edge(config, history + [o], |history|)
      requires k == EdgeKey(config, service, history + [o], |history|)
      ensures !Increasing(history + [o])
    {
      assert Sent(k);
      var n: nat :| n < |history| && Edge(config, history, n) && EdgeKey(config, service, history, n) == k;
      KeyPrefix(config, service, history, o, n);
      if Increasing(history + [o]) { KeysDistinct(config, service, history + [o], n, |history|); }
    }

    /** The candidate is confirmed: the event and the new stable health commit together or not at all. */
    method Emit(o: Observation, r: Row, reply: Reply) returns (outcome: Outcome)
      requires Valid() && (reply.Kept? ==> reply.stored in sent)
      requires row.Some? && row.value.incarnation == o.incarnation && RollupOf(o) != row.value.stable
      requires r == Candidate(row.value, o) && Passes(config, r, o)
      modifies this
      ensures Valid() && Evaluated(o, reply, outcome)
    {
      var key := BuildKey(o, r);
      if reply.Refused? { return Failed; }
      if reply.Kept? && reply.stored == key {
        RepeatedKey(o, key);
        return EdgeNotPersisted;
      }
      CommitEdge(o, r, key, reply);
      return Committed(Some(key));
    }

    /** The candidate has not lasted yet. */
    method Wait(o: Observation, r: Row, ghost reply: Reply)
      requires Valid() && row.Some? && row.value.incarnation == o.incarnation && RollupOf(o) != row.value.stable
      requires r == Candidate(row.value, o) && !Passes(config, r, o)
      modifies this`row, this`history
      ensures Valid() && Evaluated(o, reply, Committed(None))
    {
      RowWaits(config, history, o);
      Commit(o, r);
    }

    /** An observation that differs from the stable health. */
    method Weigh(o: Observation, rollup: Health, reply: Reply) returns (outcome: Outcome)
      requires Valid() && (reply.Kept? ==> reply.stored in sent)
      requires row.Some? && row.value.incarnation == o.incarnation && rollup == RollupOf(o) != row.value.stable
      modifies this
      ensures Valid() && Evaluated(o, reply, outcome)
    {
      var r := UpdateCandidate(row.value, o, rollup);
      CandidateIsRun(config, history, o);
      if r.samples < config.stabilitySamples || !LongEnough(config, r.started.value, o.at) {
        Wait(o, r, reply);
        return Committed(None);
      }
      outcome := Emit(o, r, reply);
    }

    method Evaluate(o: Observation, reply: Reply) returns (outcome: Outcome)
      requires Valid() && (reply.Kept? ==> reply.stored in sent)
      modifies this
      ensures Valid() && Evaluated(o, reply, outcome)
    {
      var rollup := AggregateTargetHealth(o.statuses);
      if row == None || row.value.incarnation != o.incarnation {
        StartRow(o, rollup, reply);
        return Committed(None);
      }
      if row.value.stable == rollup {
        DropCandidate(o, rollup, reply);
        return Committed(None);
      }
      outcome := Weigh(o, rollup, reply);
    }

    /** Evaluates one observation. The new row is the one its history calls for; an event is handed over
        exactly when the stable health changes, under the key of that change. */
    method Produce(o: Observation, reply: Reply) returns (outcome: Outcome)
      requires Valid() && (reply.Kept? ==> reply.stored in sent)
      modifies this
      ensures Valid() && Evaluated(o, reply, outcome)
      ensures Reported(config, service, old(row), row, old(history) + [o], reply, outcome)
    {
      outcome := Evaluate(o, reply);
      ChangeIsReported(config, service, old(history), o, row, reply, outcome);
    }
  }
}
