/** From per-target check results to confirmed changes of a service's health. The reference here reads
    the whole history of observations; the stored row, which sees one observation at a time, is in
    HealthProducer. */
module HealthDebounce {
  type Time = int
  /** The zero time, which the debounce test does not accept as a start. */
  const ZERO_TIME: Time := 0

  datatype Health = Healthy | Degraded | Unhealthy | Error | Unknown | NotApplicable

  datatype Status = Status(target: string, health: Health, checkedAt: Time)

  /** One evaluation of a service: the latest result of each target, when, and of which incarnation. */
  datatype Observation = Observation(statuses: seq<Status>, at: Time, incarnation: string)

  datatype Config = Config(debounce: int, stabilitySamples: int)

  /** Lower is worse. */
  function Priority(h: Health): nat {
    match h
    case Error => 0
    case Unhealthy => 1
    case Degraded => 2
    case Healthy => 3
    case NotApplicable => 5
    case Unknown => 4
  }

  /** The rollup of the applicable target healths: it does not depend on their order or number. */
  function Rollup(hs: set<Health>): (h: Health)
    requires NotApplicable !in hs
    ensures h != NotApplicable
    ensures h == Healthy <==> hs == {Healthy}
  {
    if hs == {Healthy} then Healthy
    else if Healthy in hs then Degraded
    else if Error in hs then Error
    else if Unhealthy in hs then Unhealthy
    else if Degraded in hs then Degraded
    else Unknown
  }

  function Applicable(statuses: seq<Status>): (hs: set<Health>)
    ensures NotApplicable !in hs
  {
    set s | s in statuses && s.health != NotApplicable :: s.health
  }

  function RollupOf(o: Observation): Health {
    Rollup(Applicable(o.statuses))
  }

  /** Sorting by target makes the identity of an observation independent of row order. */
  function IdOf(o: Observation): set<Status> {
    set s | s in o.statuses
  }

  lemma AllHealthy(hs: set<Health>, flagAll: bool, flagAny: bool)
    requires hs != {}
    requires flagAll <==> forall h | h in hs :: h == Healthy
    requires flagAny <==> Healthy in hs
    ensures flagAll <==> hs == {Healthy}
  {
    if flagAll {
      var h :| h in hs;
      assert h == Healthy;
      assert hs == {Healthy};
    }
  }

  method RollupLoop(statuses: seq<Status>, ghost hs: set<Health>) returns (h: Health)
    requires statuses != [] && NotApplicable !in hs
    requires forall x :: x in hs <==> exists s | s in statuses :: s.health == x
    ensures h == Rollup(hs)
  {
    var allHealthy, anyHealthy, allUnknown, worst := true, false, true, Unknown;
    for i := 0 to |statuses|
      invariant allHealthy <==> forall s | s in statuses[..i] :: s.health == Healthy
      invariant anyHealthy <==> exists s | s in statuses[..i] :: s.health == Healthy
      invariant allUnknown <==> forall s | s in statuses[..i] :: s.health == Unknown
      invariant worst == Unknown || exists s | s in statuses[..i] :: s.health == worst
      invariant forall s | s in statuses[..i] :: s.health in hs && Priority(worst) <= Priority(s.health)
    {
      var s := statuses[i];
      assert s in statuses && s.health in hs;
      assert statuses[..i + 1] == statuses[..i] + [s];
      if s.health == Healthy { anyHealthy := true; } else { allHealthy := false; }
      if s.health != Unknown { allUnknown := false; }
      if Priority(s.health) < Priority(worst) { worst := s.health; }
    }
    assert statuses[..|statuses|] == statuses;
    assert statuses[0] in statuses;
    AllHealthy(hs, allHealthy, anyHealthy);
    if allHealthy { return Healthy; }
    if anyHealthy { return Degraded; }
    if allUnknown { return Unknown; }
    return worst;
  }

  /** The loop over flags computes the rollup. */
  method AggregateTargetHealth(statuses: seq<Status>) returns (h: Health)
    ensures h == Rollup(Applicable(statuses))
  {
    var applicable: seq<Status> := [];
    for i := 0 to |statuses|
      invariant forall s :: s in applicable <==> s in statuses[..i] && s.health != NotApplicable
    {
      if statuses[i].health != NotApplicable { applicable := applicable + [statuses[i]]; }
    }
    assert statuses[..|statuses|] == statuses;
    ghost var hs := Applicable(statuses);
    assert forall s | s in applicable :: s.health in hs;
    if |applicable| == 0 {
      assert hs == {};
      return Unknown;
    }
    if |applicable| == 1 {
      assert hs == {applicable[0].health};
      return applicable[0].health;
    }
    h := RollupLoop(applicable, hs);
  }

  // ---- The history of a service ----

  /** StabilitySamples is never below one: the store's configuration replaces such values by two. */
  predicate Normal(c: Config) {
    c.stabilitySamples >= 1
  }

  predicate FirstOfIncarnation(h: seq<Observation>, n: nat)
    requires n < |h|
  {
    n == 0 || h[n - 1].incarnation != h[n].incarnation
  }

  /** Where the unbroken run of one rollup that ends at n begins. */
  function RunStart(h: seq<Observation>, n: nat): (m: nat)
    requires n < |h|
    ensures m <= n
  {
    if FirstOfIncarnation(h, n) || RollupOf(h[n - 1]) != RollupOf(h[n]) then n else RunStart(h, n - 1)
  }

  /** Observations m to n, counting a repeated observation identity once. */
  function Samples(h: seq<Observation>, m: nat, n: nat): (k: nat)
    requires m <= n < |h|
    ensures k >= 1
  {
    if n == m then 1 else Samples(h, m, n - 1) + if IdOf(h[n]) != IdOf(h[n - 1]) then 1 else 0
  }

  predicate LongEnough(c: Config, start: Time, now: Time) {
    c.debounce <= 0 || (start != ZERO_TIME && now >= start && now - start >= c.debounce)
  }

  /** The run that ends at n has enough samples and has lasted long enough. */
  predicate Confirmed(c: Config, h: seq<Observation>, n: nat)
    requires n < |h|
  {
    var m := RunStart(h, n);
    Samples(h, m, n) >= c.stabilitySamples && LongEnough(c, h[m].at, h[n].at)
  }

  /** The stable health after n: the first rollup of the incarnation, then the latest confirmed one. */
  function Stable(c: Config, h: seq<Observation>, n: nat): Health
    requires n < |h|
  {
    if FirstOfIncarnation(h, n) || Confirmed(c, h, n) then RollupOf(h[n]) else Stable(c, h, n - 1)
  }

  /** A change of stable health that is reported: the first observation of an incarnation is silent. */
  predicate Edge(c: Config, h: seq<Observation>, n: nat)
    requires n < |h|
  {
    !FirstOfIncarnation(h, n) && Stable(c, h, n) != Stable(c, h, n - 1)
  }

  /** Fully healthy: so is the stable health, and so is the latest rollup. */
  predicate Quiet(c: Config, h: seq<Observation>, n: nat)
    requires n < |h|
  {
    Stable(c, h, n) == Healthy && RollupOf(h[n]) == Healthy
  }

  /** Where the trouble that still lasts at n began: back to the last fully healthy observation. */
  function TroubleStart(c: Config, h: seq<Observation>, n: nat): (k: nat)
    requires n < |h|
    ensures k <= n
  {
    if FirstOfIncarnation(h, n) || Quiet(c, h, n - 1) then n else TroubleStart(c, h, n - 1)
  }

  /** Every observation of the run has its rollup and its incarnation, and no earlier start would do. */
  lemma {:induction false} RunIsUnbroken(h: seq<Observation>, n: nat)
    requires n < |h|
    ensures var m := RunStart(h, n);
      && (forall i | m <= i <= n :: RollupOf(h[i]) == RollupOf(h[n]) && h[i].incarnation == h[n].incarnation)
      && (m > 0 ==> RollupOf(h[m - 1]) != RollupOf(h[n]) || h[m - 1].incarnation != h[n].incarnation)
  {
    if !(FirstOfIncarnation(h, n) || RollupOf(h[n - 1]) != RollupOf(h[n])) { RunIsUnbroken(h, n - 1); }
  }

  lemma {:induction false} RunStartsAgree(h: seq<Observation>, i: nat, n: nat)
    requires i <= n < |h| && RunStart(h, n) <= i
    ensures RunStart(h, i) == RunStart(h, n)
  {
    if i < n { RunStartsAgree(h, i, n - 1); }
  }

  /** Observation i is not a re-evaluation of the one before: some check result came or went. */
  predicate NewId(h: seq<Observation>, i: nat)
    requires 0 < i < |h|
  {
    exists s | s in h[i].statuses + h[i - 1].statuses :: !(s in h[i].statuses <==> s in h[i - 1].statuses)
  }

  function NewIds(h: seq<Observation>, m: nat, n: nat): set<nat>
    requires m <= n < |h|
  {
    set i | m < i <= n && NewId(h, i)
  }

  lemma NewIdMeans(h: seq<Observation>, i: nat)
    requires 0 < i < |h|
    ensures NewId(h, i) <==> IdOf(h[i]) != IdOf(h[i - 1])
  {
    var (a, b) := (h[i - 1], h[i]);
    assert forall s :: (s in IdOf(a) <==> s in a.statuses) && (s in IdOf(b) <==> s in b.statuses);
  }

  /** The samples of a run are its changes of identity: at least that many distinct neighbours. */
  lemma {:induction false} SamplesCount(h: seq<Observation>, m: nat, n: nat)
    requires m <= n < |h|
    ensures Samples(h, m, n) == 1 + |NewIds(h, m, n)|
  {
    if n > m {
      SamplesCount(h, m, n - 1);
      NewIdMeans(h, n);
      assert NewIds(h, m, n) == NewIds(h, m, n - 1) + if NewId(h, n) then {n} else {};
    }
  }

  /** Every reported change of stable health ends an unbroken run of observations with the new rollup,
      with at least StabilitySamples consecutive-distinct identities, that began Debounce earlier. */
  lemma EdgeEndsStableRun(c: Config, h: seq<Observation>, n: nat) returns (m: nat)
    requires Normal(c) && n < |h| && Edge(c, h, n)
    ensures m <= n && Stable(c, h, n) == RollupOf(h[n]) != Stable(c, h, n - 1)
    ensures forall i | m <= i <= n :: RollupOf(h[i]) == RollupOf(h[n]) && h[i].incarnation == h[n].incarnation
    ensures 1 + |NewIds(h, m, n)| >= c.stabilitySamples
    ensures c.debounce > 0 ==> h[n].at - h[m].at >= c.debounce
  {
    m := RunStart(h, n);
    RunIsUnbroken(h, n);
    SamplesCount(h, m, n);
  }

  /** From m to n one rollup was observed in one incarnation, with enough different check results, and if a
      debounce is set it began that much earlier, at a time that is not the zero time. */
  predicate Ripe(c: Config, h: seq<Observation>, m: nat, n: nat)
    requires m <= n < |h|
  {
    && (forall i | m <= i <= n :: RollupOf(h[i]) == RollupOf(h[n]) && h[i].incarnation == h[n].incarnation)
    && 1 + |NewIds(h, m, n)| >= c.stabilitySamples
    && (c.debounce > 0 ==> h[m].at != 0 && h[m].at + c.debounce <= h[n].at)
  }

  /** Something else was observed just before m, or nothing. */
  predicate Begins(h: seq<Observation>, m: nat)
    requires m < |h|
  {
    m == 0 || RollupOf(h[m - 1]) != RollupOf(h[m]) || h[m - 1].incarnation != h[m].incarnation
  }

  lemma {:induction false} BeginsRun(h: seq<Observation>, m: nat, n: nat)
    requires m <= n < |h| && Begins(h, m)
    requires forall i | m <= i <= n :: RollupOf(h[i]) == RollupOf(h[n]) && h[i].incarnation == h[n].incarnation
    ensures RunStart(h, n) == m
  {
    if m < n { BeginsRun(h, m, n - 1); }
  }

  /** The rollup at n has lasted, from where it began. */
  predicate Lasts(c: Config, h: seq<Observation>, n: nat)
    requires n < |h|
  {
    exists m | 0 <= m <= n :: Begins(h, m) && Ripe(c, h, m, n)
  }

  /** A rollup that has lasted is the stable health: a change never fails to come. */
  lemma LastingIsStable(c: Config, h: seq<Observation>, n: nat)
    requires n < |h| && Lasts(c, h, n)
    ensures Stable(c, h, n) == RollupOf(h[n])
  {
    var m :| 0 <= m <= n && Begins(h, m) && Ripe(c, h, m, n);
    BeginsRun(h, m, n);
    SamplesCount(h, m, n);
  }

  /** And exactly then does the stable health change: to a rollup that began at some m and is ripe. */
  lemma EdgeExactly(c: Config, h: seq<Observation>, n: nat)
    requires Normal(c) && 0 < n < |h| && h[n - 1].incarnation == h[n].incarnation
    ensures Edge(c, h, n) <==>
      Stable(c, h, n - 1) != RollupOf(h[n]) && Lasts(c, h, n)
  {
    if Lasts(c, h, n) { LastingIsStable(c, h, n); }
    if Edge(c, h, n) {
      var m := RunStart(h, n);
      RunIsUnbroken(h, n);
      SamplesCount(h, m, n);
      assert Begins(h, m) && Ripe(c, h, m, n);
    }
  }

  lemma {:induction false} RunStartsBefore(h: seq<Observation>, m: nat, n: nat)
    requires m <= n < |h|
    requires forall i | m <= i <= n :: RollupOf(h[i]) == RollupOf(h[n]) && h[i].incarnation == h[n].incarnation
    ensures RunStart(h, n) <= m
  {
    if m < n { RunStartsBefore(h, m, n - 1); }
  }

  lemma SizeGrows(a: set<nat>, b: set<nat>)
    requires a <= b
    ensures |a| <= |b|
  {
    assert b == a + (b - a);
  }

  predicate Increasing(h: seq<Observation>) {
    forall i, j | 0 <= i < j < |h| :: h[i].at < h[j].at
  }

  /** With increasing times from a first one after the zero time, any unbroken stretch will do. */
  lemma StretchIsStable(c: Config, h: seq<Observation>, m: nat, n: nat)
    requires m <= n < |h| && Ripe(c, h, m, n) && Increasing(h) && h[0].at > 0
    ensures Stable(c, h, n) == RollupOf(h[n])
  {
    var k := RunStart(h, n);
    RunIsUnbroken(h, n);
    RunStartsBefore(h, m, n);
    assert NewIds(h, m, n) <= NewIds(h, k, n);
    SizeGrows(NewIds(h, m, n), NewIds(h, k, n));
    assert k > 0 ==> h[0].at < h[k].at;
    assert k < m ==> h[k].at < h[m].at;
    assert Begins(h, k) && Ripe(c, h, k, n);
    LastingIsStable(c, h, n);
  }

  /** Once a rollup is stable it stays so until a different one is observed. */
  lemma {:induction false} StableStays(c: Config, h: seq<Observation>, i: nat, n: nat)
    requires i <= n < |h| && Stable(c, h, i) == RollupOf(h[i]) && RunStart(h, n) <= i
    ensures Stable(c, h, n) == RollupOf(h[n])
  {
    RunIsUnbroken(h, n);
    if i < n { StableStays(c, h, i, n - 1); }
  }

  /** The trouble began at a non-healthy observation, and nothing since then was fully healthy. */
  lemma {:induction false} TroubleIsFirst(c: Config, h: seq<Observation>, n: nat)
    requires n < |h| && !Quiet(c, h, n)
    ensures var k := TroubleStart(c, h, n);
      && RollupOf(h[k]) != Healthy
      && (forall i | k <= i <= n :: !Quiet(c, h, i) && h[i].incarnation == h[n].incarnation)
      && (k > 0 ==> Quiet(c, h, k - 1) || h[k - 1].incarnation != h[k].incarnation)
  {
    if FirstOfIncarnation(h, n) {
    } else if Quiet(c, h, n - 1) {
    } else {
      TroubleIsFirst(c, h, n - 1);
    }
  }

  // ---- Dedupe keys ----

  /** from, to and the occurrence, which is the start of the trouble for a recovery and the start of
      the run otherwise. */
  datatype Key = Key(service: string, from: Health, to: Health, occurrence: Time)

  function EdgeKey(c: Config, service: string, h: seq<Observation>, n: nat): Key
    requires n < |h| && Edge(c, h, n)
  {
    var start := if RollupOf(h[n]) == Healthy then TroubleStart(c, h, n - 1) else RunStart(h, n);
    Key(service, Stable(c, h, n - 1), RollupOf(h[n]), h[start].at)
  }

  /** A recovery carries the time of the first non-healthy observation since the service was last
      fully healthy, or since its incarnation was first observed. */
  lemma RecoveryCarriesFirstFailure(c: Config, service: string, h: seq<Observation>, n: nat) returns (k: nat)
    requires n < |h| && Edge(c, h, n) && RollupOf(h[n]) == Healthy
    ensures k < n && EdgeKey(c, service, h, n).occurrence == h[k].at && RollupOf(h[k]) != Healthy
    ensures forall i | k <= i < n :: !Quiet(c, h, i) && h[i].incarnation == h[n].incarnation
    ensures k > 0 ==> Quiet(c, h, k - 1) || h[k - 1].incarnation != h[k].incarnation
  {
    k := TroubleStart(c, h, n - 1);
    TroubleIsFirst(c, h, n - 1);
  }

  /** A recovery leaves nothing pending and no trouble. */
  lemma RecoveryIsQuiet(c: Config, h: seq<Observation>, n: nat)
    requires n < |h| && Edge(c, h, n) && RollupOf(h[n]) == Healthy
    ensures Quiet(c, h, n) && !Quiet(c, h, n - 1)
  {
  }

  /** Trouble does not begin before the last quiet observation. */
  lemma TroubleAfterQuiet(c: Config, h: seq<Observation>, i: nat, n: nat)
    requires i <= n < |h| && Quiet(c, h, i) && !Quiet(c, h, n)
    ensures i < TroubleStart(c, h, n)
  {
    TroubleIsFirst(c, h, n);
  }

  /** Any other transition carries the time its run began. */
  lemma TransitionCarriesStart(c: Config, service: string, h: seq<Observation>, n: nat) returns (m: nat)
    requires n < |h| && Edge(c, h, n) && RollupOf(h[n]) != Healthy
    ensures m <= n && Begins(h, m) && EdgeKey(c, service, h, n).occurrence == h[m].at
    ensures forall i | m <= i <= n :: RollupOf(h[i]) == RollupOf(h[n]) && h[i].incarnation == h[n].incarnation
  {
    m := RunStart(h, n);
    RunIsUnbroken(h, n);
  }

  /** Two recoveries end different troubles. */
  lemma {:induction false} TroublesApart(c: Config, h: seq<Observation>, i: nat, j: nat)
    requires i < j < |h| && Edge(c, h, i) && Edge(c, h, j) && RollupOf(h[i]) == RollupOf(h[j]) == Healthy
    ensures TroubleStart(c, h, i - 1) < TroubleStart(c, h, j - 1)
  {
    RecoveryIsQuiet(c, h, i);
    RecoveryIsQuiet(c, h, j);
    TroubleAfterQuiet(c, h, i, j - 1);
  }

  /** A run that is reported at j did not begin before its rollup was last stable. */
  lemma RunBeginsAfter(c: Config, h: seq<Observation>, i: nat, j: nat)
    requires i < j < |h| && Stable(c, h, i) == RollupOf(h[i]) && Stable(c, h, j - 1) != RollupOf(h[j])
    ensures i < RunStart(h, j)
  {
    if RunStart(h, j) <= i {
      RunStartsAgree(h, j - 1, j);
      RunIsUnbroken(h, j);
      StableStays(c, h, i, j - 1);
    }
  }

  /** With strictly increasing observation times no dedupe key is ever used twice. */
  lemma KeysDistinct(c: Config, service: string, h: seq<Observation>, i: nat, j: nat)
    requires Increasing(h) && i < j < |h| && Edge(c, h, i) && Edge(c, h, j)
    ensures EdgeKey(c, service, h, i) != EdgeKey(c, service, h, j)
  {
    if RollupOf(h[i]) == RollupOf(h[j]) {
      if RollupOf(h[j]) == Healthy { TroublesApart(c, h, i, j); } else { RunBeginsAfter(c, h, i, j); }
    }
  }
}
