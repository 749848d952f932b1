/** The monitor's worker pools: jobs wait in one queue and whichever worker is free first takes the
    next. The deadline of a run is computed beforehand from the number of checks. */
module WorkerPool {
  type Time = nat

  /** When each worker is free again, and when each job taken so far was started. */
  datatype Pool = Pool(free: seq<Time>, starts: seq<Time>)

  predicate FreeFirst(free: seq<Time>, i: nat) {
    i < |free| && forall k | 0 <= k < |free| :: free[i] <= free[k]
  }

  function Take(p: Pool, i: nat, duration: Time): Pool
    requires i < |p.free|
  {
    Pool(p.free[i := p.free[i] + duration], p.starts + [p.free[i]])
  }

  /** Job j takes durations[j] and goes to worker picks[j]; the pool after the first n jobs. */
  function After(workers: nat, picks: seq<nat>, durations: seq<Time>, n: nat): (p: Pool)
    requires n <= |picks| <= |durations| && forall j | 0 <= j < |picks| :: picks[j] < workers
    ensures |p.free| == workers && |p.starts| == n
  {
    if n == 0 then Pool(seq(workers, _ => 0), [])
    else Take(After(workers, picks, durations, n - 1), picks[n - 1], durations[n - 1])
  }

  predicate FairPick(workers: nat, picks: seq<nat>, durations: seq<Time>, j: nat)
    requires j < |picks| <= |durations| && forall k | 0 <= k < |picks| :: picks[k] < workers
  {
    FreeFirst(After(workers, picks, durations, j).free, picks[j])
  }

  /** Every job goes, in order, to a worker that is free first; ties go either way. */
  ghost predicate Greedy(workers: nat, picks: seq<nat>, durations: seq<Time>) {
    && |picks| <= |durations| && (forall j | 0 <= j < |picks| :: picks[j] < workers)
    && forall j {:trigger FairPick(workers, picks, durations, j)} | 0 <= j < |picks| ::
      FairPick(workers, picks, durations, j)
  }

  lemma {:induction false} AfterPrefix(workers: nat, picks: seq<nat>, durations: seq<Time>, i: nat, n: nat)
    requires n <= |picks| < |durations| && i < workers && forall j | 0 <= j < |picks| :: picks[j] < workers
    ensures After(workers, picks + [i], durations, n) == After(workers, picks, durations, n)
  {
    if n > 0 { AfterPrefix(workers, picks, durations, i, n - 1); }
  }

  lemma GreedyGrows(workers: nat, picks: seq<nat>, durations: seq<Time>, i: nat)
    requires Greedy(workers, picks, durations) && |picks| < |durations| && i < workers
    requires FreeFirst(After(workers, picks, durations, |picks|).free, i)
    ensures Greedy(workers, picks + [i], durations)
  {
    forall j | 0 <= j <= |picks| ensures FairPick(workers, picks + [i], durations, j) {
      AfterPrefix(workers, picks, durations, i, j);
      if j < |picks| { assert FairPick(workers, picks, durations, j); }
    }
  }

  method FindFree(free: seq<Time>) returns (i: nat)
    requires free != []
    ensures FreeFirst(free, i)
  {
    i := 0;
    for k := 1 to |free|
      invariant i < k && forall m | 0 <= m < k :: free[i] <= free[m]
    {
      if free[k] < free[i] { i := k; }
    }
  }

  /** Drains the queue: the workers' loops, as one loop over the jobs in queue order. */
  method RunPool(workers: nat, durations: seq<Time>) returns (picks: seq<nat>, starts: seq<Time>)
    requires workers > 0
    ensures |picks| == |durations| && Greedy(workers, picks, durations)
    ensures starts == After(workers, picks, durations, |durations|).starts
  {
    picks := [];
    var pool := Pool(seq(workers, _ => 0), []);
    for j := 0 to |durations|
      invariant |picks| == j && Greedy(workers, picks, durations)
      invariant pool == After(workers, picks, durations, j)
    {
      var i := FindFree(pool.free);
      GreedyGrows(workers, picks, durations, i);
      AfterPrefix(workers, picks, durations, i, j);
      picks, pool := picks + [i], Take(pool, i, durations[j]);
    }
    starts := pool.starts;
  }

  /** Workers still busy after bound. */
  function Late(free: seq<Time>, bound: Time): nat {
    if free == [] then 0 else Late(free[..|free| - 1], bound) + if free[|free| - 1] > bound then 1 else 0
  }

  lemma {:induction false} SomeoneFree(free: seq<Time>, bound: Time)
    requires Late(free, bound) < |free|
    ensures exists k :: 0 <= k < |free| && free[k] <= bound
  {
    var last := |free| - 1;
    if free[last] > bound {
      SomeoneFree(free[..last], bound);
      var k :| 0 <= k < last && free[..last][k] <= bound;
      assert free[k] <= bound;
    }
  }

  lemma {:induction false} LateUpdate(free: seq<Time>, bound: Time, i: nat, x: Time)
    requires i < |free|
    ensures Late(free[i := x], bound) <= Late(free, bound) + 1
  {
    var last := |free| - 1;
    if i < last {
      LateUpdate(free[..last], bound, i, x);
      assert free[i := x][..last] == free[..last][i := x];
    } else {
      assert free[i := x][..last] == free[..last];
    }
  }

  lemma {:induction false} NobodyLate(free: seq<Time>, bound: Time)
    ensures Late(free, bound) == 0 <==> forall k | 0 <= k < |free| :: free[k] <= bound
  {
    if free != [] { NobodyLate(free[..|free| - 1], bound); }
  }

  /** q limits, added up. */
  function Times(q: nat, limit: Time): Time {
    if q == 0 then 0 else Times(q - 1, limit) + limit
  }

  lemma {:induction false} TimesIsProduct(q: nat, limit: Time)
    ensures Times(q, limit) == q * limit
  {
    if q > 0 { TimesIsProduct(q - 1, limit); }
  }

  lemma {:induction false} TimesGrows(p: nat, q: nat, limit: Time)
    requires p <= q
    ensures Times(p, limit) <= Times(q, limit)
  {
    if p < q { TimesGrows(p, q - 1, limit); }
  }

  /** The wave job n belongs to, and its place in it. */
  datatype Slot = Slot(wave: nat, place: nat)

  function SlotOf(n: nat, workers: nat): (s: Slot)
    requires workers > 0
    ensures s.place < workers
  {
    if n == 0 then Slot(0, 0)
    else
      var s := SlotOf(n - 1, workers);
      if s.place + 1 < workers then Slot(s.wave, s.place + 1) else Slot(s.wave + 1, 0)
  }

  lemma MulMonotone(a: nat, b: nat, k: nat)
    requires a <= b
    ensures a * k <= b * k
  {
    assert b * k == a * k + (b - a) * k;
  }

  lemma {:induction false} LessFactor(a: nat, b: nat, k: nat)
    requires a * k < b * k
    ensures a < b
  {
    if a >= b { MulMonotone(b, a, k); }
  }

  lemma DivUnique(n: nat, w: nat, q: nat, r: nat)
    requires w > 0 && r < w && n == q * w + r
    ensures n / w == q
  {
    LessFactor(n / w, q + 1, w);
    LessFactor(q, n / w + 1, w);
  }

  lemma {:induction false} SlotIsQuotient(n: nat, workers: nat)
    requires workers > 0
    ensures n == SlotOf(n, workers).wave * workers + SlotOf(n, workers).place
    ensures SlotOf(n, workers).wave == n / workers
  {
    if n > 0 { SlotIsQuotient(n - 1, workers); }
    DivUnique(n, workers, SlotOf(n, workers).wave, SlotOf(n, workers).place);
  }

  /** After the jobs before place r of wave q: nobody is busy after wave q + 1, at most r after wave q. */
  ghost predicate Waves(free: seq<Time>, q: nat, r: nat, limit: Time) {
    && (forall k | 0 <= k < |free| :: free[k] <= Times(q + 1, limit))
    && Late(free, Times(q, limit)) <= r
  }

  /** One more job starts within the current wave. */
  lemma WaveStep(free: seq<Time>, q: nat, r: nat, limit: Time, i: nat, duration: Time)
    requires r < |free| && Waves(free, q, r, limit) && FreeFirst(free, i) && duration <= limit
    ensures free[i] <= Times(q, limit)
    ensures Waves(free[i := free[i] + duration], q, r + 1, limit)
  {
    SomeoneFree(free, Times(q, limit));
    LateUpdate(free, Times(q, limit), i, free[i] + duration);
  }

  /** A full wave is the start of the next. */
  lemma NextWave(free: seq<Time>, q: nat, limit: Time)
    requires Waves(free, q, |free|, limit)
    ensures Waves(free, q + 1, 0, limit)
  {
    NobodyLate(free, Times(q + 1, limit));
  }

  lemma SlotStep(free: seq<Time>, workers: nat, n: nat, limit: Time, i: nat, duration: Time)
    requires |free| == workers > 0 && FreeFirst(free, i) && duration <= limit
    requires Waves(free, SlotOf(n, workers).wave, SlotOf(n, workers).place, limit)
    ensures Waves(free[i := free[i] + duration], SlotOf(n + 1, workers).wave, SlotOf(n + 1, workers).place, limit)
  {
    var s := SlotOf(n, workers);
    WaveStep(free, s.wave, s.place, limit, i, duration);
    if s.place + 1 == workers { NextWave(free[i := free[i] + duration], s.wave, limit); }
  }

  lemma IdlePool(workers: nat, limit: Time)
    ensures Waves(seq(workers, _ => 0), 0, 0, limit)
  {
    NobodyLate(seq(workers, _ => 0), 0);
  }

  lemma AfterTake(workers: nat, picks: seq<nat>, durations: seq<Time>, n: nat)
    requires 0 < n <= |picks| <= |durations| && forall j | 0 <= j < |picks| :: picks[j] < workers
    ensures var before := After(workers, picks, durations, n - 1).free;
      After(workers, picks, durations, n).free == before[picks[n - 1] := before[picks[n - 1]] + durations[n - 1]]
  {
  }

  /** One more job of a greedy pool keeps the waves. */
  lemma JobStep(workers: nat, picks: seq<nat>, durations: seq<Time>, limit: Time, n: nat)
    requires workers > 0 && n < |picks| <= |durations| && durations[n] <= limit
    requires forall j | 0 <= j < |picks| :: picks[j] < workers
    requires FairPick(workers, picks, durations, n)
    requires Waves(After(workers, picks, durations, n).free, SlotOf(n, workers).wave, SlotOf(n, workers).place, limit)
    ensures var slot := SlotOf(n + 1, workers);
      Waves(After(workers, picks, durations, n + 1).free, slot.wave, slot.place, limit)
  {
    SlotStep(After(workers, picks, durations, n).free, workers, n, limit, picks[n], durations[n]);
    AfterTake(workers, picks, durations, n + 1);
  }

  lemma {:induction false} WavesAlways(workers: nat, picks: seq<nat>, durations: seq<Time>, limit: Time, n: nat)
    requires workers > 0 && Greedy(workers, picks, durations) && n <= |picks|
    requires forall j | 0 <= j < |durations| :: durations[j] <= limit
    ensures Waves(After(workers, picks, durations, n).free, SlotOf(n, workers).wave, SlotOf(n, workers).place, limit)
  {
    if n == 0 {
      IdlePool(workers, limit);
    } else {
      WavesAlways(workers, picks, durations, limit, n - 1);
      assert FairPick(workers, picks, durations, n - 1);
      JobStep(workers, picks, durations, limit, n - 1);
    }
  }

  lemma {:induction false} StartKept(workers: nat, picks: seq<nat>, durations: seq<Time>, j: nat, n: nat)
    requires j < n <= |picks| <= |durations| && forall k | 0 <= k < |picks| :: picks[k] < workers
    ensures After(workers, picks, durations, n).starts[j] == After(workers, picks, durations, j).free[picks[j]]
  {
    if j < n - 1 { StartKept(workers, picks, durations, j, n - 1); }
  }

  lemma StartsInSlot(workers: nat, picks: seq<nat>, durations: seq<Time>, limit: Time, j: nat)
    requires workers > 0 && Greedy(workers, picks, durations) && j < |picks|
    requires forall k | 0 <= k < |durations| :: durations[k] <= limit
    ensures After(workers, picks, durations, |picks|).starts[j] <= Times(SlotOf(j, workers).wave, limit)
  {
    WavesAlways(workers, picks, durations, limit, j);
    assert FairPick(workers, picks, durations, j);
    var slot := SlotOf(j, workers);
    WaveStep(After(workers, picks, durations, j).free, slot.wave, slot.place, limit, picks[j], durations[j]);
    StartKept(workers, picks, durations, j, |picks|);
  }

  /** Job j starts by floor(j / workers) * limit, when no job takes longer than limit. */
  lemma StartsInWave(workers: nat, picks: seq<nat>, durations: seq<Time>, limit: Time, j: nat)
    requires workers > 0 && Greedy(workers, picks, durations) && j < |picks|
    requires forall k | 0 <= k < |durations| :: durations[k] <= limit
    ensures After(workers, picks, durations, |picks|).starts[j] <= (j / workers) * limit
  {
    StartsInSlot(workers, picks, durations, limit, j);
    SlotIsQuotient(j, workers);
    TimesIsProduct(j / workers, limit);
  }

  function TimeoutWaves(checks: int, concurrency: int): nat {
    if checks < 1 then 1
    else if concurrency < 1 then checks
    else (checks + concurrency - 1) / concurrency
  }

  function Workers(concurrency: nat, checks: nat): nat {
    if concurrency < checks then concurrency else checks
  }

  /** The last job's wave is within the counted waves. */
  lemma WavesSuffice(n: nat, concurrency: nat, j: nat)
    requires j < n && concurrency > 0
    ensures j / Workers(concurrency, n) + 1 <= TimeoutWaves(n, concurrency)
  {
    var w := Workers(concurrency, n);
    var (q, t) := (j / w, TimeoutWaves(n, concurrency));
    assert q * w <= j;
    if n <= concurrency {
      DivUnique(n + concurrency - 1, concurrency, 1, n - 1);
      DivUnique(j, w, 0, j);
    } else {
      assert n + concurrency - 1 < t * concurrency + concurrency;
      assert q * concurrency < t * concurrency;
      LessFactor(q, t, concurrency);
    }
  }

  lemma {:induction false} WavesGrow(a: nat, b: nat, concurrency: nat)
    requires a <= b && concurrency > 0
    ensures TimeoutWaves(a, concurrency) <= TimeoutWaves(b, concurrency)
  {
    var (s, t) := (TimeoutWaves(a, concurrency), TimeoutWaves(b, concurrency));
    if a < 1 {
      if b >= 1 { WavesSuffice(b, concurrency, 0); DivUnique(0, Workers(concurrency, b), 0, 0); }
    } else {
      assert s * concurrency <= a + concurrency - 1;
      assert b + concurrency - 1 < t * concurrency + concurrency;
      assert s * concurrency < (t + 1) * concurrency;
      LessFactor(s, t + 1, concurrency);
    }
  }

  /** Every check of a greedy pool of min(concurrency, n) workers ends within TimeoutWaves(n, concurrency) limits. */
  lemma FinishesInWaves(concurrency: nat, picks: seq<nat>, durations: seq<Time>, limit: Time, j: nat)
    requires concurrency > 0 && Greedy(Workers(concurrency, |picks|), picks, durations) && j < |picks|
    requires forall k | 0 <= k < |durations| :: durations[k] <= limit
    ensures var done := After(Workers(concurrency, |picks|), picks, durations, |picks|);
      done.starts[j] + durations[j] <= Times(TimeoutWaves(|picks|, concurrency), limit)
  {
    var w := Workers(concurrency, |picks|);
    StartsInSlot(w, picks, durations, limit, j);
    SlotIsQuotient(j, w);
    WavesSuffice(|picks|, concurrency, j);
    TimesGrows(SlotOf(j, w).wave + 1, TimeoutWaves(|picks|, concurrency), limit);
  }

  const HTTP_ROUTE_CONCURRENCY: nat := 8
  const HTTP_ROUTE_REQUEST_BUDGET: nat := 2
  const PING_CONCURRENCY: nat := 16
  /** Two seconds, in nanoseconds. */
  const DEADLINE_MARGIN: Time := 2_000_000_000

  function HttpRouteRunTimeout(checks: nat, timeout: Time): Time {
    TimeoutWaves(checks, HTTP_ROUTE_CONCURRENCY) * HTTP_ROUTE_REQUEST_BUDGET * timeout + DEADLINE_MARGIN
  }

  function PingRunTimeout(checks: nat, timeout: Time): Time {
    TimeoutWaves(checks, PING_CONCURRENCY) * timeout + DEADLINE_MARGIN
  }

  lemma RouteTimeoutIsWaves(counted: nat, timeout: Time)
    ensures HttpRouteRunTimeout(counted, timeout) ==
      Times(TimeoutWaves(counted, HTTP_ROUTE_CONCURRENCY), HTTP_ROUTE_REQUEST_BUDGET * timeout) + DEADLINE_MARGIN
  {
    TimesIsProduct(TimeoutWaves(counted, HTTP_ROUTE_CONCURRENCY), HTTP_ROUTE_REQUEST_BUDGET * timeout);
  }

  /** A route check is a HEAD and at most one GET, each within the request timeout. Counting every
      exposed route, also those that are overridden or blocked and never queued, the run's deadline
      leaves its whole margin after the last check. */
  lemma RoutesMeetDeadline(counted: nat, timeout: Time, picks: seq<nat>, durations: seq<Time>, j: nat)
    requires |picks| <= counted && j < |picks|
    requires Greedy(Workers(HTTP_ROUTE_CONCURRENCY, |picks|), picks, durations)
    requires forall k | 0 <= k < |durations| :: durations[k] <= HTTP_ROUTE_REQUEST_BUDGET * timeout
    ensures var done := After(Workers(HTTP_ROUTE_CONCURRENCY, |picks|), picks, durations, |picks|);
      done.starts[j] + durations[j] + DEADLINE_MARGIN <= HttpRouteRunTimeout(counted, timeout)
  {
    var limit := HTTP_ROUTE_REQUEST_BUDGET * timeout;
    FinishesInWaves(HTTP_ROUTE_CONCURRENCY, picks, durations, limit, j);
    WavesGrow(|picks|, counted, HTTP_ROUTE_CONCURRENCY);
    TimesGrows(TimeoutWaves(|picks|, HTTP_ROUTE_CONCURRENCY), TimeoutWaves(counted, HTTP_ROUTE_CONCURRENCY), limit);
    RouteTimeoutIsWaves(counted, timeout);
  }

  lemma PingsMeetDeadline(counted: nat, timeout: Time, picks: seq<nat>, durations: seq<Time>, j: nat)
    requires |picks| <= counted && j < |picks|
    requires Greedy(Workers(PING_CONCURRENCY, |picks|), picks, durations)
    requires forall k | 0 <= k < |durations| :: durations[k] <= timeout
    ensures var done := After(Workers(PING_CONCURRENCY, |picks|), picks, durations, |picks|);
      done.starts[j] + durations[j] + DEADLINE_MARGIN <= PingRunTimeout(counted, timeout)
  {
    FinishesInWaves(PING_CONCURRENCY, picks, durations, timeout, j);
    WavesGrow(|picks|, counted, PING_CONCURRENCY);
    TimesGrows(TimeoutWaves(|picks|, PING_CONCURRENCY), TimeoutWaves(counted, PING_CONCURRENCY), timeout);
    TimesIsProduct(TimeoutWaves(counted, PING_CONCURRENCY), timeout);
  }

  /** The run's deadline is no longer than that takes: k waves of eight route checks, or of sixteen pings, are
      counted only if k - 1 waves do not hold them, and two seconds come on top. */
  lemma DeadlinesExactly(counted: nat, timeout: Time, k: nat)
    requires counted > 0
    ensures 8 * (k - 1) < counted <= 8 * k ==> HttpRouteRunTimeout(counted, timeout) == k * 2 * timeout + 2_000_000_000
    ensures 16 * (k - 1) < counted <= 16 * k ==> PingRunTimeout(counted, timeout) == k * timeout + 2_000_000_000
  {
    if 8 * (k - 1) < counted <= 8 * k { assert TimeoutWaves(counted, 8) == k; }
    if 16 * (k - 1) < counted <= 16 * k { assert TimeoutWaves(counted, 16) == k; }
  }
}
