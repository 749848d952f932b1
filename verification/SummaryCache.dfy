/** The versioned cache of the dashboard summary, and its readers and writers: a reader fills it from
    several separate queries, a writer commits first and invalidates afterwards. */
module SummaryCache {
  import opened Options
  type Time = int
  const TTL: Time := 60_000_000_000
  const WRAP := 0x1_0000_0000_0000_0000

  /** expiresAt 0 is a status without an expiry. */
  datatype Status = Status(applicable: bool, expiresAt: Time)

  /** The results of the five queries behind a summary; the other tables are opaque here. */
  datatype Tables = Tables(repositories: nat, services: nat, scans: nat, statuses: seq<Status>, uptime: nat)

  datatype Entry = Entry(version: nat, cachedAt: Time, summary: Tables)

  /** version is an unsigned 64-bit counter. */
  datatype Cache = Cache(version: nat, entry: Option<Entry>)

  predicate Expired(s: Status, now: Time) {
    s.applicable && s.expiresAt != 0 && now >= s.expiresAt
  }

  /** What a lookup may hand out. */
  function Lookup(c: Cache, now: Time): Option<Tables> {
    if c.entry.Some? && c.entry.value.version == c.version && now - c.entry.value.cachedAt < TTL
       && (forall s | s in c.entry.value.summary.statuses :: !Expired(s, now))
    then Some(c.entry.value.summary) else None
  }

  function Stored(c: Cache, version: nat, summary: Tables, now: Time): Cache {
    if c.version == version then c.(entry := Some(Entry(version, now, summary))) else c
  }

  function Invalidated(c: Cache): Cache {
    Cache((c.version + 1) % WRAP, None)
  }

  class Store {
    var summaryVersion: nat
    var summaryCache: Option<Entry>

    function Contents(): Cache reads this {
      Cache(summaryVersion, summaryCache)
    }

    constructor ()
      ensures Contents() == Cache(0, None)
    {
      summaryVersion, summaryCache := 0, None;
    }

    /** Serves the cached copy unless it is outdated, too old or holds an expired applicable status. */
    method CachedSummary(now: Time) returns (served: Option<Tables>)
      ensures served == Lookup(Contents(), now)
    {
      if summaryCache == None || summaryCache.value.version != summaryVersion { return None; }
      if now - summaryCache.value.cachedAt >= TTL { return None; }
      var statuses := summaryCache.value.summary.statuses;
      for i := 0 to |statuses|
        invariant forall j | 0 <= j < i :: !Expired(statuses[j], now)
      {
        if statuses[i].applicable && statuses[i].expiresAt != 0 && now >= statuses[i].expiresAt {
          assert Expired(statuses[i], now);
          return None;
        }
      }
      return Some(summaryCache.value.summary);
    }

    method CacheSummary(version: nat, summary: Tables, now: Time)
      modifies this
      ensures Contents() == Stored(old(Contents()), version, summary, now)
    {
      if summaryVersion != version { return; }
      summaryCache := Some(Entry(version, now, summary));
    }

    method InvalidateSummary()
      modifies this
      ensures Contents() == Invalidated(old(Contents()))
    {
      summaryVersion := (summaryVersion + 1) % WRAP;
      summaryCache := None;
    }
  }

  // ---- Readers and writers ----

  /** A reader between reading the version and storing: queries done so far and what they returned.
      born is how many invalidations there had been when it read the version. */
  datatype Reader = Reader(version: nat, born: nat, done: nat, got: Tables)

  /** owing: writers that have committed and not yet invalidated. count: invalidations so far. */
  datatype World = World(db: Tables, cache: Cache, owing: set<nat>, readers: map<nat, Reader>, count: nat)

  datatype Action =
    | Commit(w: nat, db: Tables)
    | Invalidate(w: nat)
    | Begin(r: nat)
    | Query(r: nat)
    | Fill(r: nat, now: Time)
    | Abort(r: nat)

  const QUERIES := 5

  /** Query k of buildSummary reads its table from the database as it is now. */
  function Fetch(got: Tables, db: Tables, k: nat): Tables {
    if k == 0 then got.(repositories := db.repositories)
    else if k == 1 then got.(services := db.services)
    else if k == 2 then got.(scans := db.scans)
    else if k == 3 then got.(statuses := db.statuses)
    else got.(uptime := db.uptime)
  }

  function Next(w: World, a: Action): World {
    match a
    case Commit(p, db) => if p in w.owing then w else w.(db := db, owing := w.owing + {p})
    case Invalidate(p) =>
      if p in w.owing then w.(cache := Invalidated(w.cache), owing := w.owing - {p}, count := w.count + 1) else w
    case Begin(r) =>
      if r in w.readers then w
        else w.(readers := w.readers[r := Reader(w.cache.version, w.count, 0, Tables(0, 0, 0, [], 0))])
    case Query(r) =>
      if r in w.readers && w.readers[r].done < QUERIES then
        var x := w.readers[r];
        w.(readers := w.readers[r := Reader(x.version, x.born, x.done + 1, Fetch(x.got, w.db, x.done))])
      else w
    case Fill(r, now) =>
      if r in w.readers && w.readers[r].done == QUERIES then
        w.(cache := Stored(w.cache, w.readers[r].version, w.readers[r].got, now), readers := w.readers - {r})
      else w
    case Abort(r) => w.(readers := w.readers - {r})
  }

  function Start(db: Tables): World {
    World(db, Cache(0, None), {}, map[], 0)
  }

  function Exec(db: Tables, acts: seq<Action>): World {
    if acts == [] then Start(db) else Next(Exec(db, acts[..|acts| - 1]), acts[|acts| - 1])
  }

  /** The first k query results are the current ones. */
  predicate Matches(got: Tables, db: Tables, k: nat) {
    && (k > 0 ==> got.repositories == db.repositories)
    && (k > 1 ==> got.services == db.services)
    && (k > 2 ==> got.scans == db.scans)
    && (k > 3 ==> got.statuses == db.statuses)
    && (k > 4 ==> got.uptime == db.uptime)
  }

  /** Reads since the last invalidation are current, unless some commit still owes its invalidation. */
  predicate ReaderFits(w: World, x: Reader) {
    && x.version == x.born % WRAP && x.born <= w.count && x.done <= QUERIES
    && (w.owing == {} && x.born == w.count ==> Matches(x.got, w.db, x.done))
  }

  ghost predicate Base(w: World) {
    && w.cache.version == w.count % WRAP
    && (w.cache.entry.Some? ==> w.cache.entry.value.version == w.cache.version)
    && forall r | r in w.readers :: ReaderFits(w, w.readers[r])
  }

  /** With no invalidation outstanding, the cached summary is the database as it is now. */
  predicate Fresh(w: World) {
    w.owing == {} && w.cache.entry.Some? ==> w.cache.entry.value.summary == w.db
  }

  /** A reader stores under the current version what is no longer in the database. */
  predicate StaleFill(w: World, a: Action) {
    && a.Fill? && a.r in w.readers && w.readers[a.r].done == QUERIES
    && w.readers[a.r].version == w.cache.version && w.owing == {} && w.readers[a.r].got != w.db
  }

  /** A reader stores its summary after a whole number of times 2^64 invalidations since it read the
      version, which is then the same again. */
  predicate WrappedFill(w: World, a: Action) {
    && a.Fill? && a.r in w.readers && w.readers[a.r].done == QUERIES
    && w.readers[a.r].born < w.count && (w.count - w.readers[a.r].born) % WRAP == 0
  }

  lemma SameVersion(born: nat, count: nat)
    requires born <= count && born % WRAP == count % WRAP
    ensures (count - born) % WRAP == 0
  {
    var (q, p) := (count / WRAP, born / WRAP);
    assert count - born == (q - p) * WRAP;
  }

  /** Only a version that has come round lets a stale summary in. */
  lemma StaleIsWrapped(w: World, a: Action)
    requires Base(w) && StaleFill(w, a)
    ensures WrappedFill(w, a)
  {
    assert ReaderFits(w, w.readers[a.r]);
    SameVersion(w.readers[a.r].born, w.count);
  }

  lemma BaseStep(w: World, a: Action)
    requires Base(w)
    ensures Base(Next(w, a))
  {
    var v := Next(w, a);
    if a.Query? && a.r in w.readers { assert ReaderFits(w, w.readers[a.r]); }
    if a.Invalidate? { assert (w.count % WRAP + 1) % WRAP == (w.count + 1) % WRAP; }
    forall r | r in v.readers ensures ReaderFits(v, v.readers[r]) {
      if r in w.readers { assert ReaderFits(w, w.readers[r]); }
    }
  }

  lemma {:induction false} BaseAlways(db: Tables, acts: seq<Action>)
    ensures Base(Exec(db, acts))
  {
    if acts != [] {
      BaseAlways(db, acts[..|acts| - 1]);
      BaseStep(Exec(db, acts[..|acts| - 1]), acts[|acts| - 1]);
    }
  }

  /** One step keeps the cache fresh exactly when it is not a stale fill. */
  lemma FreshStep(w: World, a: Action)
    requires Base(w) && Fresh(w)
    ensures Fresh(Next(w, a)) <==> !StaleFill(w, a)
  {
  }

  ghost predicate AlwaysFresh(db: Tables, acts: seq<Action>) {
    forall n | 0 <= n <= |acts| :: Fresh(Exec(db, acts[..n]))
  }

  ghost predicate NeverStale(db: Tables, acts: seq<Action>) {
    forall n | 0 <= n < |acts| :: !StaleFill(Exec(db, acts[..n]), acts[n])
  }

  lemma AlwaysFreshSnoc(db: Tables, before: seq<Action>, a: Action)
    ensures AlwaysFresh(db, before + [a]) <==> AlwaysFresh(db, before) && Fresh(Exec(db, before + [a]))
  {
    var acts := before + [a];
    assert acts[..|acts|] == acts;
    assert forall n | 0 <= n <= |before| :: acts[..n] == before[..n];
  }

  lemma NeverStaleSnoc(db: Tables, before: seq<Action>, a: Action)
    ensures NeverStale(db, before + [a]) <==> NeverStale(db, before) && !StaleFill(Exec(db, before), a)
  {
    var acts := before + [a];
    assert acts[..|before|] == before;
    assert forall n | 0 <= n <= |before| :: acts[..n] == before[..n];
  }

  /** Over every run the cache is fresh throughout if and only if no fill is stale. */
  lemma {:induction false} CacheFreshExactly(db: Tables, acts: seq<Action>)
    ensures AlwaysFresh(db, acts) <==> NeverStale(db, acts)
  {
    if acts == [] {
      assert acts[..0] == [];
    } else {
      var (before, a) := (acts[..|acts| - 1], acts[|acts| - 1]);
      assert before + [a] == acts;
      CacheFreshExactly(db, before);
      AlwaysFreshSnoc(db, before, a);
      NeverStaleSnoc(db, before, a);
      if AlwaysFresh(db, before) {
        assert before[..|before|] == before;
        BaseAlways(db, before);
        FreshStep(Exec(db, before), a);
      }
    }
  }

  /** No fill of the run meets a version that has come round. */
  ghost predicate NeverWrapped(db: Tables, acts: seq<Action>) {
    forall n | 0 <= n < |acts| :: !WrappedFill(Exec(db, acts[..n]), acts[n])
  }

  lemma UnwrappedIsFresh(db: Tables, acts: seq<Action>)
    requires NeverWrapped(db, acts)
    ensures Fresh(Exec(db, acts))
  {
    forall n | 0 <= n < |acts| ensures !StaleFill(Exec(db, acts[..n]), acts[n]) {
      BaseAlways(db, acts[..n]);
      if StaleFill(Exec(db, acts[..n]), acts[n]) { StaleIsWrapped(Exec(db, acts[..n]), acts[n]); }
    }
    CacheFreshExactly(db, acts);
    assert acts[..|acts|] == acts;
  }

  /** Once every commit has run its invalidation, whatever the cache would serve is the database as it
      is now, in all its tables, and holds no applicable status that has expired. */
  lemma CacheCoherent(db: Tables, acts: seq<Action>, now: Time)
    requires NeverWrapped(db, acts) && Exec(db, acts).owing == {} && Lookup(Exec(db, acts).cache, now).Some?
    ensures var w := Exec(db, acts);
      && Lookup(w.cache, now).value == w.db
      && (forall s | s in w.db.statuses && s.applicable && s.expiresAt != 0 :: now < s.expiresAt)
  {
    UnwrappedIsFresh(db, acts);
    var w := Exec(db, acts);
    forall s | s in w.db.statuses && s.applicable && s.expiresAt != 0 ensures now < s.expiresAt {
      assert !Expired(s, now);
    }
  }

  // ---- What a version that has come round does ----

  function Cycle(db: Tables, k: nat): seq<Action> {
    if k == 0 then [] else Cycle(db, k - 1) + [Commit(0, db), Invalidate(0)]
  }

  lemma ExecOne(db: Tables, acts: seq<Action>, a: Action)
    ensures Exec(db, acts + [a]) == Next(Exec(db, acts), a)
  {
    assert (acts + [a])[..|acts|] == acts;
  }

  lemma OneCycle(w: World, db: Tables, k: nat)
    requires w.owing == {} && w.cache.version == k % WRAP
    ensures Next(Next(w, Commit(0, db)), Invalidate(0)) ==
      World(db, Cache((k + 1) % WRAP, None), {}, w.readers, w.count + 1)
  {
    assert (k % WRAP + 1) % WRAP == (k + 1) % WRAP;
  }

  lemma {:induction false} CycleWorld(was: Tables, db: Tables, pre: seq<Action>, k: nat)
    requires k > 0 && Exec(was, pre).owing == {} && Exec(was, pre).cache.version == 0
    ensures var w := Exec(was, pre);
      Exec(was, pre + Cycle(db, k)) == World(db, Cache(k % WRAP, None), {}, w.readers, w.count + k)
  {
    var shorter := pre + Cycle(db, k - 1);
    assert pre + Cycle(db, k) == shorter + [Commit(0, db)] + [Invalidate(0)];
    ExecOne(was, shorter, Commit(0, db));
    ExecOne(was, shorter + [Commit(0, db)], Invalidate(0));
    if k == 1 {
      assert shorter == pre;
    } else {
      CycleWorld(was, db, pre, k - 1);
    }
    OneCycle(Exec(was, shorter), db, k - 1);
  }

  function Reads(k: nat): seq<Action> {
    if k == 0 then [Begin(0)] else Reads(k - 1) + [Query(0)]
  }

  function Got(db: Tables, k: nat): Tables {
    if k == 0 then Tables(0, 0, 0, [], 0) else Fetch(Got(db, k - 1), db, k - 1)
  }

  lemma {:induction false} GotMatches(db: Tables, k: nat)
    requires k <= QUERIES
    ensures Matches(Got(db, k), db, k)
  {
    if k > 0 { GotMatches(db, k - 1); }
  }

  lemma QueryWorld(db: Tables, k: nat, got: Tables)
    requires k < QUERIES
    ensures Next(World(db, Cache(0, None), {}, map[0 := Reader(0, 0, k, got)], 0), Query(0)) ==
      World(db, Cache(0, None), {}, map[0 := Reader(0, 0, k + 1, Fetch(got, db, k))], 0)
  {
  }

  lemma {:induction false} ReadWorld(db: Tables, k: nat)
    requires k <= QUERIES
    ensures Exec(db, Reads(k)) == World(db, Cache(0, None), {}, map[0 := Reader(0, 0, k, Got(db, k))], 0)
  {
    if k == 0 {
      ExecOne(db, [], Begin(0));
      assert [] + [Begin(0)] == Reads(0);
    } else {
      ReadWorld(db, k - 1);
      ExecOne(db, Reads(k - 1), Query(0));
      QueryWorld(db, k - 1, Got(db, k - 1));
    }
  }

  /** A reader that 2^64 invalidations overtake stores what it read before all of them, and it is served. */
  lemma OvertakenReaderServesStale(was: Tables, db: Tables) returns (acts: seq<Action>)
    requires was != db && was.statuses == []
    ensures var w := Exec(was, acts); w.owing == {} && w.db == db && Lookup(w.cache, 0) == Some(was)
  {
    var pre := Reads(QUERIES);
    ReadWorld(was, QUERIES);
    GotMatches(was, QUERIES);
    CycleWorld(was, db, pre, WRAP);
    acts := pre + Cycle(db, WRAP) + [Fill(0, 0)];
    assert acts[..|acts| - 1] == pre + Cycle(db, WRAP);
  }
}
