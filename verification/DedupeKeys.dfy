/** The alert dedupe key: a key file beside the database and its fingerprint inside it, under any
    interleaving of processes that open, crash, reset and write alert events. Every file access and
    every committed database statement is one step; a transaction's writes appear at its commit. */
module DedupeKeys {
  import opened Options

  type Proc = nat
  type Key = nat
  type Token = string
  type EventId = nat

  /** Corrupt is a file that does not hold a whole key; its creator may still be writing to it. */
  datatype KeyFile = Missing | Corrupt(writer: Proc) | Valid(key: Key)

  datatype Mode = PreferExisting | CreateMissing | ReplaceExisting | ReplaceCorrupt

  /** What a process does next. The Tx and State steps run while it holds the database's write lock. */
  datatype Pc =
    | ReadMarker
    | ReadKey(marked: bool)
    | RetryKey(marked: bool)
    | InspectRows
    | InspectFingerprint(rows: bool)
    | RetryMissing
    | Create(inTx: bool)
    | AwaitKey(inTx: bool)
    | Writing(key: Key, inTx: bool)
    | Verify(key: Key)
    | VerifyRows(key: Key)
    | FirstWrite(key: Key)
    | Reset(mode: Mode)
    | TxRead(mode: Mode)
    | TxClear
    | TxVerify(key: Key)
    | TxCommit(key: Key)
    | PostFile(key: Key, pending: bool, token: Token)
    | PostFingerprint(key: Key, pending: bool, token: Token)
    | ResetState(token: Token)
    | StateRead(token: Token)
    | StateCommit(key: Key, token: Token)
    | Open(key: Key)
    | Checked(key: Key)
    | Latched

  datatype Process = Process(reset: bool, token: Token, pc: Pc)

  /** key is the secret the event's dedupe hash was computed with. */
  datatype Event = Event(key: Key, pending: bool)

  datatype World = World(
    file: KeyFile,
    fingerprint: Option<Key>,
    marker: Option<Token>,
    consumed: set<Token>,
    events: map<EventId, Event>,
    lock: Option<Proc>,
    procs: map<Proc, Process>)

  const EMPTY := World(Missing, None, None, {}, map[], None, map[])

  /** Advance runs the next step of an open; Fail is an I/O error in it. Tamper is an operator
      replacing the key file by hand. */
  datatype Action =
    | Start(p: Proc, reset: bool, token: Token)
    | Crash(p: Proc)
    | Fail(p: Proc)
    | Advance(p: Proc, minted: Key)
    | CheckFile(p: Proc)
    | Enqueue(p: Proc, e: EventId)
    | Retarget(p: Proc, e: EventId)
    | Finish(e: EventId)
    | Prune(e: EventId)
    | Tamper(file: KeyFile)

  function Goto(w: World, p: Proc, pc: Pc): World
    requires p in w.procs
  {
    w.(procs := w.procs[p := w.procs[p].(pc := pc)])
  }

  /** Leaving with an error rolls an open transaction back, which frees the write lock. */
  function Unlock(w: World, p: Proc): World {
    if w.lock == Some(p) then w.(lock := None) else w
  }

  function Latch(w: World, p: Proc): World
    requires p in w.procs
  {
    Goto(Unlock(w, p), p, Latched)
  }

  function TokenInUse(w: World, p: Proc): Token
    requires p in w.procs
  {
    if w.marker.Some? then w.marker.value else w.procs[p].token
  }

  /** The first read of the key file, and the re-read of an invalid one. */
  function AfterRead(file: KeyFile, marked: bool, reset: bool, retried: bool): Pc {
    match file
    case Valid(k) => if marked then Reset(PreferExisting) else Verify(k)
    case _ =>
      if retried then (if marked || reset then Reset(ReplaceCorrupt) else Latched)
      else if file.Corrupt? then RetryKey(marked)
      else if marked then Reset(CreateMissing)
      else InspectRows
  }

  /** The key file is missing: rows or a fingerprint of a lost key need a reset. */
  function AfterInspection(rows: bool, fingerprint: Option<Key>, reset: bool): Pc {
    if rows && !reset then Latched
    else if fingerprint.Some? && !reset then RetryMissing
    else if (rows || fingerprint.Some?) && reset then Reset(CreateMissing)
    else Create(false)
  }

  function AfterVerify(key: Key, fingerprint: Option<Key>, reset: bool): Pc {
    if fingerprint == None then VerifyRows(key)
    else if fingerprint == Some(key) then Open(key)
    else if reset then Reset(ReplaceExisting)
    else Latched
  }

  /** With the write lock held: the repair may be done already, may adopt the file's key, may be
      refused because the token was used before, or must replace the key. */
  function ResetUnderLock(w: World, p: Proc, mode: Mode): World
    requires p in w.procs
  {
    if w.file.Valid? && w.fingerprint == Some(w.file.key) then
      Goto(Unlock(w, p), p, PostFile(w.file.key, w.marker.Some?, TokenInUse(w, p)))
    else if w.file.Valid? && mode == PreferExisting then Goto(w, p, TxVerify(w.file.key))
    else if w.marker == None && w.procs[p].token in w.consumed then Latch(w, p)
    else match mode
      case PreferExisting => Goto(w, p, if w.file.Corrupt? then TxClear else Create(true))
      case CreateMissing => Goto(w, p, if w.file.Valid? then TxClear else Create(true))
      case ReplaceExisting => Goto(w, p, TxClear)
      case ReplaceCorrupt => Goto(w, p, TxClear)
  }

  /** A created key goes on to be fingerprinted, in the reset transaction or outside any. */
  function Obtained(key: Key, inTx: bool): Pc {
    if inTx then TxVerify(key) else FirstWrite(key)
  }

  /** Step 010: everything pending was hashed under a lost key and is closed. */
  function ClosePending(events: map<EventId, Event>): map<EventId, Event> {
    map e | e in events :: events[e].(pending := false)
  }

  function RunOpen(w: World, p: Proc, minted: Key): World
    requires p in w.procs
  {
    var pr := w.procs[p];
    match pr.pc
    case ReadMarker => Goto(w, p, ReadKey(w.marker.Some?))
    case ReadKey(marked) => Goto(w, p, AfterRead(w.file, marked, pr.reset, false))
    case RetryKey(marked) => Goto(w, p, AfterRead(w.file, marked, pr.reset, true))
    case InspectRows => Goto(w, p, InspectFingerprint(w.events != map[]))
    case InspectFingerprint(rows) => Goto(w, p, AfterInspection(rows, w.fingerprint, pr.reset))
    case RetryMissing => Goto(w, p, if w.file.Valid? then Verify(w.file.key) else Latched)
    case Create(inTx) =>
      if w.file == Missing then Goto(w.(file := Corrupt(p)), p, Writing(minted, inTx)) else Goto(w, p, AwaitKey(inTx))
    case AwaitKey(inTx) => if w.file.Valid? then Goto(w, p, Obtained(w.file.key, inTx)) else Latch(w, p)
    // The write reaches the file it opened, even if that is no longer the file at the path.
    case Writing(key, inTx) => Goto(if w.file == Corrupt(p) then w.(file := Valid(key)) else w, p, Obtained(key, inTx))
    case Verify(key) => Goto(w, p, AfterVerify(key, w.fingerprint, pr.reset))
    case VerifyRows(key) =>
      Goto(w, p, if w.events == map[] then FirstWrite(key) else if pr.reset then Reset(ReplaceExisting) else Latched)
    case FirstWrite(key) => if w.lock == None then Goto(w.(fingerprint := Some(key)), p, Open(key)) else w
    case Reset(mode) => if w.lock == None then Goto(w.(lock := Some(p)), p, TxRead(mode)) else w
    case TxRead(mode) => ResetUnderLock(w, p, mode)
    case TxClear => Goto(w.(file := Missing), p, Create(true))
    case TxVerify(key) => if w.file == Valid(key) then Goto(w, p, TxCommit(key)) else Latch(w, p)
    case TxCommit(key) =>
      Goto(w.(fingerprint := Some(key), marker := Some(TokenInUse(w, p)), lock := None), p,
        PostFile(key, true, TokenInUse(w, p)))
    case PostFile(key, pending, token) => Goto(w, p, if w.file == Valid(key)
      then PostFingerprint(key, pending, token) else Latched)
    case PostFingerprint(key, pending, token) =>
      Goto(w, p, if w.fingerprint != Some(key) then Latched else if pending then ResetState(token) else Open(key))
    case ResetState(token) =>
      var spent := if w.marker.Some? then w.marker.value else token;
      if w.lock == None then Goto(w.(lock := Some(p)), p, StateRead(spent)) else w
    case StateRead(token) => if w.file.Valid? then Goto(w, p, StateCommit(w.file.key, token)) else Latch(w, p)
    case StateCommit(key, token) =>
      if w.file != Valid(key) then Latch(w, p)
      else Goto(w.(fingerprint := Some(key), marker := None, consumed := w.consumed + {token},
                   events := ClosePending(w.events), lock := None), p, Open(key))
    case _ => w
  }

  /** A failed write of a new key removes the file at the path, whoever created it. */
  function FailOpen(w: World, p: Proc): World
    requires p in w.procs
  {
    Latch(if w.procs[p].pc.Writing? then w.(file := Missing) else w, p)
  }

  /** The guard of every alert write: the file held the process's key when it was read, and the
      fingerprint is that key's in the writing transaction. */
  predicate MayWrite(w: World, p: Proc) {
    p in w.procs && w.procs[p].pc.Checked? && w.lock == None && w.fingerprint == Some(w.procs[p].pc.key)
  }

  function CommitEvent(w: World, p: Proc, e: EventId, pending: bool): World
    requires p in w.procs && w.procs[p].pc.Checked?
  {
    var key := w.procs[p].pc.key;
    if MayWrite(w, p) then Goto(w.(events := w.events[e := Event(key, pending)]), p, Open(key))
    else if w.lock == None then Latch(w, p)
    else w
  }

  /** The step an action makes; one that is not enabled changes nothing. */
  function Next(w: World, a: Action): World {
    match a
    case Start(p, reset, token) => if p in w.procs then w
      else w.(procs := w.procs[p := Process(reset, token, ReadMarker)])
    case Crash(p) => Unlock(w, p).(procs := w.procs - {p})
    case Fail(p) => if p in w.procs then FailOpen(w, p) else w
    case Advance(p, minted) => if p in w.procs then RunOpen(w, p, minted) else w
    case CheckFile(p) =>
      if p in w.procs && w.procs[p].pc.Open? then
        if w.file == Valid(w.procs[p].pc.key) then Goto(w, p, Checked(w.procs[p].pc.key)) else Latch(w, p)
      else w
    case Enqueue(p, e) =>
      if p in w.procs && w.procs[p].pc.Checked? && e !in w.events then CommitEvent(w, p, e, true) else w
    case Retarget(p, e) =>
      if p in w.procs && w.procs[p].pc.Checked? && e in w.events then CommitEvent(w, p, e, w.events[e].pending) else w
    case Finish(e) => if e in w.events then w.(events := w.events[e := w.events[e].(pending := false)]) else w
    case Prune(e) => if e in w.events && !w.events[e].pending then w.(events := w.events - {e}) else w
    case Tamper(file) => w.(file := file)
  }

  /** The world after a run of actions from an empty database. */
  function Exec(acts: seq<Action>): World {
    if acts == [] then EMPTY else Next(Exec(acts[..|acts| - 1]), acts[|acts| - 1])
  }

  /** Without a reset marker, every pending event was hashed under the stored key. */
  predicate Coherent(w: World) {
    w.marker == None ==> forall e | e in w.events && w.events[e].pending :: w.fingerprint == Some(w.events[e].key)
  }

  /** A first fingerprint write that overwrites another process's fingerprint under pending events. */
  predicate StaleFirstWrite(w: World, a: Action) {
    && a.Advance? && a.p in w.procs && w.procs[a.p].pc.FirstWrite? && w.lock == None
    && w.fingerprint.Some? && w.fingerprint != Some(w.procs[a.p].pc.key)
    && w.marker == None && exists e | e in w.events :: w.events[e].pending
  }

  predicate RowsNeedFingerprint(w: World) {
    w.fingerprint == None ==> w.events == map[]
  }

  /** The alert rows and their key, as committed. */
  predicate SameRecord(w: World, v: World) {
    w.fingerprint == v.fingerprint && w.marker == v.marker && w.events == v.events
  }

  /** Of an open's steps only three commits touch the record. */
  lemma OpenFrame(w: World, p: Proc, minted: Key)
    requires p in w.procs
    ensures var pc := w.procs[p].pc;
      !(pc.FirstWrite? || pc.TxCommit? || pc.StateCommit?) ==> SameRecord(w, RunOpen(w, p, minted))
  {
  }

  /** Whatever a step adds or re-hashes is under the fingerprint stored before and after it. */
  lemma HashedUnderStoredKey(w: World, a: Action, e: EventId)
    requires e in Next(w, a).events && (e in w.events ==> w.events[e].key != Next(w, a).events[e].key)
    ensures w.fingerprint == Some(Next(w, a).events[e].key) == Next(w, a).fingerprint
    ensures (a.Enqueue? || a.Retarget?) && a.e == e && MayWrite(w, a.p)
  {
    if a.Advance? { OpenFrame(w, a.p, a.minted); }
  }

  /** acts[n] committed an enqueue or retarget of e by a process that was allowed to write. */
  predicate Wrote(acts: seq<Action>, n: nat, e: EventId)
    requires n < |acts|
  {
    var (w, a) := (Exec(acts[..n]), acts[n]);
    (a.Enqueue? || a.Retarget?) && a.e == e && MayWrite(w, a.p) && (a.Enqueue? <==> e !in w.events)
  }

  lemma ExecNext(acts: seq<Action>, n: nat)
    requires n < |acts|
    ensures Exec(acts[..n + 1]) == Next(Exec(acts[..n]), acts[n])
  {
    assert acts[..n + 1][..n] == acts[..n];
  }

  /** Over every run: whatever an enqueue or retarget commits is hashed under the key whose fingerprint is
      stored at that moment, before and after it. */
  lemma CommitsUnderStoredKey(acts: seq<Action>, n: nat, e: EventId)
    requires n < |acts| && Wrote(acts, n, e)
    ensures var (w, v) := (Exec(acts[..n]), Exec(acts[..n + 1]));
      e in v.events && w.fingerprint == Some(v.events[e].key) == v.fingerprint
  {
    ExecNext(acts, n);
  }

  /** And nothing else hashes an event: with any number of resets, lost files and old keys in memory, the
      hash an event carries was written by such a commit, under the key stored then. */
  lemma {:induction false} HashesWereStoredKeys(acts: seq<Action>, e: EventId) returns (n: nat)
    requires e in Exec(acts).events
    ensures n < |acts| && Wrote(acts, n, e)
    ensures var v := Exec(acts[..n + 1]);
      e in v.events && v.events[e].key == Exec(acts).events[e].key
        && Exec(acts[..n]).fingerprint == Some(v.events[e].key)
  {
    var last := |acts| - 1;
    var before := acts[..last];
    assert acts[..last + 1] == acts;
    if e in Exec(before).events && Exec(before).events[e].key == Exec(acts).events[e].key {
      n := HashesWereStoredKeys(before, e);
      assert before[..n] == acts[..n] && before[..n + 1] == acts[..n + 1];
    } else {
      HashedUnderStoredKey(Exec(before), acts[last], e);
      n := last;
    }
  }

  lemma RowsStep(w: World, a: Action)
    requires RowsNeedFingerprint(w)
    ensures RowsNeedFingerprint(Next(w, a))
  {
    if a.Advance? && a.p in w.procs { OpenFrame(w, a.p, a.minted); }
  }

  lemma {:induction false} RowsAlwaysNeedFingerprint(acts: seq<Action>)
    ensures RowsNeedFingerprint(Exec(acts))
  {
    if acts != [] {
      RowsAlwaysNeedFingerprint(acts[..|acts| - 1]);
      RowsStep(Exec(acts[..|acts| - 1]), acts[|acts| - 1]);
    }
  }

  lemma OpenCoherent(w: World, p: Proc, minted: Key)
    requires p in w.procs && RowsNeedFingerprint(w) && Coherent(w) && !StaleFirstWrite(w, Advance(p, minted))
    ensures Coherent(RunOpen(w, p, minted))
  {
    OpenFrame(w, p, minted);
  }

  lemma WriteCoherent(w: World, p: Proc, e: EventId, pending: bool)
    requires p in w.procs && w.procs[p].pc.Checked? && Coherent(w)
    ensures Coherent(CommitEvent(w, p, e, pending))
  {
    var v := CommitEvent(w, p, e, pending);
    assert MayWrite(w, p) ==>
      v.events == w.events[e := Event(w.procs[p].pc.key, pending)] && v.fingerprint == w.fingerprint;
  }

  lemma StaleWriteBreaks(w: World, a: Action)
    requires StaleFirstWrite(w, a) && Coherent(w)
    ensures !Coherent(Next(w, a))
  {
    var e :| e in w.events && w.events[e].pending;
    assert Next(w, a).events == w.events && Next(w, a).marker == None;
  }

  /** One step keeps the pending events coherent exactly when it is not a stale first write. */
  lemma CoherentStep(w: World, a: Action)
    requires RowsNeedFingerprint(w) && Coherent(w)
    ensures Coherent(Next(w, a)) <==> !StaleFirstWrite(w, a)
  {
    if StaleFirstWrite(w, a) {
      StaleWriteBreaks(w, a);
    } else if a.Advance? {
      if a.p in w.procs { OpenCoherent(w, a.p, a.minted); }
    } else if a.Enqueue? {
      if a.p in w.procs && w.procs[a.p].pc.Checked? { WriteCoherent(w, a.p, a.e, true); }
    } else if a.Retarget? {
      if a.p in w.procs && w.procs[a.p].pc.Checked?
        && a.e in w.events { WriteCoherent(w, a.p, a.e, w.events[a.e].pending); }
    }
  }

  predicate AlwaysCoherent(acts: seq<Action>) {
    forall n | 0 <= n <= |acts| :: Coherent(Exec(acts[..n]))
  }

  predicate NeverStale(acts: seq<Action>) {
    forall n | 0 <= n < |acts| :: !StaleFirstWrite(Exec(acts[..n]), acts[n])
  }

  lemma AlwaysCoherentSnoc(before: seq<Action>, a: Action)
    ensures AlwaysCoherent(before + [a]) <==> AlwaysCoherent(before) && Coherent(Exec(before + [a]))
  {
    var acts := before + [a];
    assert acts[..|acts|] == acts;
    assert forall n | 0 <= n <= |before| :: acts[..n] == before[..n];
  }

  lemma NeverStaleSnoc(before: seq<Action>, a: Action)
    ensures NeverStale(before + [a]) <==> NeverStale(before) && !StaleFirstWrite(Exec(before), a)
  {
    var acts := before + [a];
    assert acts[..|before|] == before;
    assert forall n | 0 <= n <= |before| :: acts[..n] == before[..n];
  }

  /** Over every run: pending events stay under the stored key exactly when no first fingerprint
      write is stale. That write is the only step that can break it. */
  lemma {:induction false} CoherentExactly(acts: seq<Action>)
    ensures AlwaysCoherent(acts) <==> NeverStale(acts)
  {
    if acts == [] {
      assert acts[..0] == [];
    } else {
      var (before, a) := (acts[..|acts| - 1], acts[|acts| - 1]);
      assert before + [a] == acts;
      CoherentExactly(before);
      AlwaysCoherentSnoc(before, a);
      NeverStaleSnoc(before, a);
      if AlwaysCoherent(before) {
        assert before[..|before|] == before;
        RowsAlwaysNeedFingerprint(before);
        CoherentStep(Exec(before), a);
      }
    }
  }

  // ---- Without resets ----

  predicate NoReset(a: Action) {
    !a.Tamper? && (a.Start? ==> !a.reset)
  }

  function HeldKey(pc: Pc): Option<Key> {
    match pc
    case Verify(k) => Some(k)
    case VerifyRows(k) => Some(k)
    case FirstWrite(k) => Some(k)
    case Open(k) => Some(k)
    case Checked(k) => Some(k)
    case _ => None
  }

  /** The steps of an open that never resets, each holding the file's own key. */
  predicate PlainProcess(file: KeyFile, p: Proc, pr: Process) {
    && !pr.reset
    && (HeldKey(pr.pc).Some? ==> file == Valid(HeldKey(pr.pc).value))
    && match pr.pc
       case ReadKey(marked) => !marked
       case RetryKey(marked) => !marked
       case Create(inTx) => !inTx
       case AwaitKey(inTx) => !inTx
       case Writing(_, inTx) => !inTx && file == Corrupt(p)
       case ReadMarker => true
       case InspectRows => true
       case InspectFingerprint(_) => true
       case RetryMissing => true
       case Latched => true
       case _ => HeldKey(pr.pc).Some?
  }

  ghost predicate Plain(w: World) {
    && w.marker == None && w.lock == None
    && (w.fingerprint.Some? ==> w.file == Valid(w.fingerprint.value))
    && forall p | p in w.procs :: PlainProcess(w.file, p, w.procs[p])
  }

  lemma PlainElsewhere(w: World, v: World, p: Proc)
    requires Plain(w) && v.file == w.file && v.marker == None && v.lock == None && v.fingerprint == w.fingerprint
    requires forall q | q in v.procs && q != p :: q in w.procs && v.procs[q] == w.procs[q]
    requires p in v.procs ==> PlainProcess(v.file, p, v.procs[p])
    ensures Plain(v)
  {
  }

  lemma PlainCreate(w: World, p: Proc, minted: Key)
    requires Plain(w) && p in w.procs && w.procs[p].pc.Create?
    ensures Plain(RunOpen(w, p, minted))
  {
    var v := RunOpen(w, p, minted);
    assert PlainProcess(w.file, p, w.procs[p]);
    forall q | q in v.procs && q != p ensures PlainProcess(v.file, q, v.procs[q]) {
      assert PlainProcess(w.file, q, w.procs[q]);
    }
  }

  lemma PlainWriting(w: World, p: Proc, minted: Key)
    requires Plain(w) && p in w.procs && w.procs[p].pc.Writing?
    ensures Plain(RunOpen(w, p, minted))
  {
    var v := RunOpen(w, p, minted);
    assert PlainProcess(w.file, p, w.procs[p]);
    forall q | q in v.procs && q != p ensures PlainProcess(v.file, q, v.procs[q]) {
      assert PlainProcess(w.file, q, w.procs[q]);
    }
  }

  lemma PlainFirstWrite(w: World, p: Proc, minted: Key)
    requires Plain(w) && p in w.procs && w.procs[p].pc.FirstWrite?
    ensures Plain(RunOpen(w, p, minted))
  {
    var v := RunOpen(w, p, minted);
    assert PlainProcess(w.file, p, w.procs[p]);
    forall q | q in v.procs && q != p ensures PlainProcess(v.file, q, v.procs[q]) {
      assert PlainProcess(w.file, q, w.procs[q]);
    }
  }

  predicate OnlyReads(pc: Pc) {
    !pc.Create? && !pc.Writing? && !pc.FirstWrite?
  }

  /** All other steps of such an open only read. */
  lemma PlainReadKeyless(w: World, p: Proc, minted: Key)
    requires p in w.procs && OnlyReads(w.procs[p].pc) && HeldKey(w.procs[p].pc) == None
    requires PlainProcess(w.file, p, w.procs[p])
    requires w.marker == None && (w.fingerprint.Some? ==> w.file == Valid(w.fingerprint.value))
    ensures var v := RunOpen(w, p, minted); p in v.procs && PlainProcess(w.file, p, v.procs[p])
  {
  }

  lemma PlainReadHolding(w: World, p: Proc, minted: Key)
    requires p in w.procs && OnlyReads(w.procs[p].pc) && HeldKey(w.procs[p].pc).Some?
    requires PlainProcess(w.file, p, w.procs[p])
    requires w.marker == None && (w.fingerprint.Some? ==> w.file == Valid(w.fingerprint.value))
    ensures var v := RunOpen(w, p, minted); p in v.procs && PlainProcess(w.file, p, v.procs[p])
  {
  }

  lemma PlainReadOwn(w: World, p: Proc, minted: Key)
    requires p in w.procs && OnlyReads(w.procs[p].pc) && PlainProcess(w.file, p, w.procs[p])
    requires w.marker == None && (w.fingerprint.Some? ==> w.file == Valid(w.fingerprint.value))
    ensures var v := RunOpen(w, p, minted); p in v.procs && PlainProcess(w.file, p, v.procs[p])
  {
    if HeldKey(w.procs[p].pc) == None { PlainReadKeyless(w, p, minted); } else { PlainReadHolding(w, p, minted); }
  }

  lemma PlainReadFrame(w: World, p: Proc, minted: Key)
    requires p in w.procs && OnlyReads(w.procs[p].pc) && PlainProcess(w.file, p, w.procs[p]) && w.lock == None
    ensures var v := RunOpen(w, p, minted);
      && v.file == w.file && v.marker == w.marker && v.lock == w.lock && v.fingerprint == w.fingerprint
      && forall q | q in v.procs && q != p :: q in w.procs && v.procs[q] == w.procs[q]
  {
  }

  lemma PlainRead(w: World, p: Proc, minted: Key)
    requires Plain(w) && p in w.procs && OnlyReads(w.procs[p].pc)
    ensures Plain(RunOpen(w, p, minted))
  {
    assert PlainProcess(w.file, p, w.procs[p]);
    PlainReadOwn(w, p, minted);
    PlainReadFrame(w, p, minted);
    PlainElsewhere(w, RunOpen(w, p, minted), p);
  }

  lemma PlainOpen(w: World, p: Proc, minted: Key)
    requires Plain(w) && p in w.procs
    ensures Plain(RunOpen(w, p, minted))
  {
    var pc := w.procs[p].pc;
    if pc.Create? {
      PlainCreate(w, p, minted);
    } else if pc.Writing? {
      PlainWriting(w, p, minted);
    } else if pc.FirstWrite? {
      PlainFirstWrite(w, p, minted);
    } else {
      PlainRead(w, p, minted);
    }
  }

  lemma PlainFail(w: World, p: Proc)
    requires Plain(w) && p in w.procs
    ensures Plain(FailOpen(w, p))
  {
    var v := FailOpen(w, p);
    assert PlainProcess(w.file, p, w.procs[p]);
    forall q | q in v.procs ensures PlainProcess(v.file, q, v.procs[q]) {
      if q != p { assert v.procs[q] == w.procs[q] && PlainProcess(w.file, q, w.procs[q]); }
    }
  }

  lemma PlainWrite(w: World, p: Proc, e: EventId, pending: bool)
    requires Plain(w) && p in w.procs && w.procs[p].pc.Checked?
    ensures Plain(CommitEvent(w, p, e, pending))
  {
    assert PlainProcess(w.file, p, w.procs[p]);
    PlainElsewhere(w, CommitEvent(w, p, e, pending), p);
  }

  lemma PlainCheck(w: World, p: Proc)
    requires Plain(w)
    ensures Plain(Next(w, CheckFile(p)))
  {
    if p in w.procs { assert PlainProcess(w.file, p, w.procs[p]); }
    PlainElsewhere(w, Next(w, CheckFile(p)), p);
  }

  lemma PlainStep(w: World, a: Action)
    requires Plain(w) && NoReset(a)
    ensures Plain(Next(w, a))
  {
    match a
    case Start(p, _, _) => if p !in w.procs { PlainElsewhere(w, Next(w, a), p); }
    case Crash(p) => PlainElsewhere(w, Next(w, a), p);
    case Fail(p) => if p in w.procs { PlainFail(w, p); }
    case Advance(p, minted) => if p in w.procs { PlainOpen(w, p, minted); }
    case CheckFile(p) => PlainCheck(w, p);
    case Enqueue(p, e) => if p in w.procs && w.procs[p].pc.Checked? { PlainWrite(w, p, e, true); }
    case Retarget(p, e) => if p in w.procs && w.procs[p].pc.Checked?
      && e in w.events { PlainWrite(w, p, e, w.events[e].pending); }
    case _ =>
  }

  lemma PlainNotStale(w: World, a: Action)
    requires Plain(w)
    ensures !StaleFirstWrite(w, a)
  {
    if a.Advance? && a.p in w.procs { assert PlainProcess(w.file, a.p, w.procs[a.p]); }
  }

  lemma {:induction false} PlainRuns(acts: seq<Action>)
    requires forall n | 0 <= n < |acts| :: NoReset(acts[n])
    ensures Plain(Exec(acts)) && NeverStale(acts)
  {
    if acts != [] {
      var (before, a) := (acts[..|acts| - 1], acts[|acts| - 1]);
      assert before + [a] == acts;
      PlainRuns(before);
      PlainStep(Exec(before), a);
      PlainNotStale(Exec(before), a);
      NeverStaleSnoc(before, a);
    }
  }

  /** As long as no process is allowed to reset and nobody edits the file, no crash, failed write or
      race between openers separates the pending events from the stored key or from the key file. */
  lemma CoherentWithoutResets(acts: seq<Action>)
    requires forall n | 0 <= n < |acts| :: NoReset(acts[n])
    ensures AlwaysCoherent(acts)
    ensures Exec(acts).fingerprint.Some? ==> Exec(acts).file == Valid(Exec(acts).fingerprint.value)
  {
    PlainRuns(acts);
    CoherentExactly(acts);
  }

  lemma PlainKeepsFingerprint(w: World, a: Action)
    requires Plain(w) && NoReset(a) && w.fingerprint.Some?
    ensures Next(w, a).fingerprint == w.fingerprint
  {
    if a.Advance? && a.p in w.procs {
      assert PlainProcess(w.file, a.p, w.procs[a.p]);
      OpenFrame(w, a.p, a.minted);
    }
  }

  /** Nor does the stored key ever change then: alert rows are never silently given to another key. */
  lemma {:induction false} FingerprintFixedWithoutResets(acts: seq<Action>, i: nat, j: nat)
    requires i <= j <= |acts| && forall n | 0 <= n < |acts| :: NoReset(acts[n])
    requires Exec(acts[..i]).fingerprint.Some?
    ensures Exec(acts[..j]).fingerprint == Exec(acts[..i]).fingerprint
    decreases j - i
  {
    if i < j {
      FingerprintFixedWithoutResets(acts, i, j - 1);
      assert acts[..j][..j - 1] == acts[..j - 1];
      PlainRuns(acts[..j - 1]);
      PlainKeepsFingerprint(Exec(acts[..j - 1]), acts[j - 1]);
    }
  }

  // ---- A run that breaks coherence ----

  predicate Untampered(acts: seq<Action>) {
    forall n | 0 <= n < |acts| :: !acts[n].Tamper?
  }

  /** Two processes: 1 may not reset, 2 may. */
  function Scene(
    file: KeyFile, fingerprint: Option<Key>, marker: Option<Token>, lock: Option<Proc>, slow: Pc, resetter: Pc): World
  {
    World(file, fingerprint, marker, {}, map[], lock,
      map[1 := Process(false, "t", slow), 2 := Process(true, "t", resetter)])
  }

  /** Process 1 has created a key file and not yet written its key to it. */
  function Stalled(
    file: KeyFile, fingerprint: Option<Key>, marker: Option<Token>, lock: Option<Proc>, resetter: Pc): World
  {
    Scene(file, fingerprint, marker, lock, Writing(10, false), resetter)
  }

  /** Some run without tampering reaches w. */
  ghost predicate Reachable(w: World) {
    exists acts :: Untampered(acts) && Exec(acts) == w
  }

  lemma Take(w: World, a: Action)
    requires Reachable(w) && !a.Tamper?
    ensures Reachable(Next(w, a))
  {
    var acts :| Untampered(acts) && Exec(acts) == w;
    assert (acts + [a])[..|acts|] == acts;
    assert Untampered(acts + [a]) && Exec(acts + [a]) == Next(w, a);
  }

  /** Process p runs its next step from w to v. */
  lemma Move(w: World, p: Proc, v: World)
    requires Reachable(w) && Next(w, Advance(p, 10 * p)) == v
    ensures Reachable(v)
  {
    Take(w, Advance(p, 10 * p));
  }

  lemma BothStart()
    ensures Reachable(Scene(Missing, None, None, None, ReadMarker, ReadMarker))
  {
    var one := EMPTY.(procs := map[2 := Process(true, "t", ReadMarker)]);
    assert Untampered([]) && Exec([]) == EMPTY;
    Take(EMPTY, Start(2, true, "t"));
    Take(one, Start(1, false, "t"));
    assert Next(one, Start(1, false, "t")) == Scene(Missing, None, None, None, ReadMarker, ReadMarker);
  }

  /** Process 1 finds no key file. */
  lemma SlowReads()
    ensures Reachable(Scene(Missing, None, None, None, InspectRows, ReadMarker))
  {
    BothStart();
    Move(Scene(Missing, None, None, None, ReadMarker, ReadMarker), 1,
      Scene(Missing, None, None, None, ReadKey(false), ReadMarker));
    Move(Scene(Missing, None, None, None, ReadKey(false), ReadMarker), 1,
      Scene(Missing, None, None, None, InspectRows, ReadMarker));
  }

  /** Nor does it find alert rows. */
  lemma SlowInspects()
    ensures Reachable(Scene(Missing, None, None, None, InspectFingerprint(false), ReadMarker))
  {
    SlowReads();
    Move(Scene(Missing, None, None, None, InspectRows, ReadMarker), 1,
      Scene(Missing, None, None, None, InspectFingerprint(false), ReadMarker));
  }

  /** Process 1 has created the key file and not yet written to it. */
  lemma SlowCreates()
    ensures Reachable(Stalled(Corrupt(1), None, None, None, ReadMarker))
  {
    SlowInspects();
    Move(Scene(Missing, None, None, None, InspectFingerprint(false), ReadMarker), 1,
      Scene(Missing, None, None, None, Create(false), ReadMarker));
    Move(Scene(Missing, None, None, None, Create(false), ReadMarker), 1,
      Stalled(Corrupt(1), None, None, None, ReadMarker));
  }

  /** Process 2 takes that file for corrupt. */
  lemma ResetterRereads()
    ensures Reachable(Stalled(Corrupt(1), None, None, None, RetryKey(false)))
  {
    SlowCreates();
    Move(Stalled(Corrupt(1), None, None, None, ReadMarker), 2,
         Stalled(Corrupt(1), None, None, None, ReadKey(false)));
    Move(Stalled(Corrupt(1), None, None, None, ReadKey(false)), 2,
         Stalled(Corrupt(1), None, None, None, RetryKey(false)));
  }

  /** It is going to replace the file. */
  lemma ResetterReads()
    ensures Reachable(Stalled(Corrupt(1), None, None, None, Reset(ReplaceCorrupt)))
  {
    ResetterRereads();
    Move(Stalled(Corrupt(1), None, None, None, RetryKey(false)), 2,
         Stalled(Corrupt(1), None, None, None, Reset(ReplaceCorrupt)));
  }

  /** Process 2 moves it aside, holding the write lock. */
  lemma ResetterTakesLock()
    ensures Reachable(Stalled(Corrupt(1), None, None, Some(2), TxClear))
  {
    ResetterReads();
    Move(Stalled(Corrupt(1), None, None, None, Reset(ReplaceCorrupt)), 2,
         Stalled(Corrupt(1), None, None, Some(2), TxRead(ReplaceCorrupt)));
    Move(Stalled(Corrupt(1), None, None, Some(2), TxRead(ReplaceCorrupt)), 2,
         Stalled(Corrupt(1), None, None, Some(2), TxClear));
  }

  /** The path is free again. */
  lemma ResetterClears()
    ensures Reachable(Stalled(Missing, None, None, Some(2), Create(true)))
  {
    ResetterTakesLock();
    Move(Stalled(Corrupt(1), None, None, Some(2), TxClear), 2,
         Stalled(Missing, None, None, Some(2), Create(true)));
  }

  /** Process 2 writes its own key. */
  lemma ResetterWritesFile()
    ensures Reachable(Stalled(Valid(20), None, None, Some(2), TxVerify(20)))
  {
    ResetterClears();
    Move(Stalled(Missing, None, None, Some(2), Create(true)), 2,
         Stalled(Corrupt(2), None, None, Some(2), Writing(20, true)));
    Move(Stalled(Corrupt(2), None, None, Some(2), Writing(20, true)), 2,
         Stalled(Valid(20), None, None, Some(2), TxVerify(20)));
  }

  /** It verifies what it wrote. */
  lemma ResetterWrites()
    ensures Reachable(Stalled(Valid(20), None, None, Some(2), TxCommit(20)))
  {
    ResetterWritesFile();
    Move(Stalled(Valid(20), None, None, Some(2), TxVerify(20)), 2,
         Stalled(Valid(20), None, None, Some(2), TxCommit(20)));
  }

  /** Process 2 commits marker and fingerprint. */
  lemma ResetterCommits()
    ensures Reachable(Stalled(Valid(20), Some(20), Some("t"), None, PostFile(20, true, "t")))
  {
    ResetterWrites();
    Move(Stalled(Valid(20), None, None, Some(2), TxCommit(20)), 2,
         Stalled(Valid(20), Some(20), Some("t"), None, PostFile(20, true, "t")));
  }

  /** Process 2 finds both as it left them. */
  lemma ResetterVerifies()
    ensures Reachable(Stalled(Valid(20), Some(20), Some("t"), None, ResetState("t")))
  {
    ResetterCommits();
    Move(Stalled(Valid(20), Some(20), Some("t"), None, PostFile(20, true, "t")), 2,
         Stalled(Valid(20), Some(20), Some("t"), None, PostFingerprint(20, true, "t")));
    Move(Stalled(Valid(20), Some(20), Some("t"), None, PostFingerprint(20, true, "t")), 2,
         Stalled(Valid(20), Some(20), Some("t"), None, ResetState("t")));
  }

  /** Process 2 starts the reset of alert rows. */
  lemma ResetterLocks()
    ensures Reachable(Stalled(Valid(20), Some(20), Some("t"), Some(2), StateCommit(20, "t")))
  {
    ResetterVerifies();
    Move(Stalled(Valid(20), Some(20), Some("t"), None, ResetState("t")), 2,
         Stalled(Valid(20), Some(20), Some("t"), Some(2), StateRead("t")));
    Move(Stalled(Valid(20), Some(20), Some("t"), Some(2), StateRead("t")), 2,
         Stalled(Valid(20), Some(20), Some("t"), Some(2), StateCommit(20, "t")));
  }

  /** Process 2 is open with its key and has used its token. */
  function Replaced(resetter: Pc): World {
    Stalled(Valid(20), Some(20), None, None, resetter).(consumed := {"t"})
  }

  /** Process 2 clears the marker and opens. */
  lemma ResetterOpens()
    ensures Reachable(Replaced(Open(20)))
  {
    ResetterLocks();
    Move(Stalled(Valid(20), Some(20), Some("t"), Some(2), StateCommit(20, "t")), 2, Replaced(Open(20)));
  }

  /** Process 2 has enqueued an event under its key while process 1 goes on. */
  function Enqueued(fingerprint: Key, slow: Pc): World {
    Scene(Valid(20), Some(fingerprint), None, None, slow, Open(20)).(
      consumed := {"t"}, events := map[0 := Event(20, true)])
  }

  lemma ResetterEnqueues()
    ensures Reachable(Enqueued(20, Writing(10, false)))
  {
    ResetterOpens();
    Take(Replaced(Open(20)), CheckFile(2));
    assert Next(Replaced(Open(20)), CheckFile(2)) == Replaced(Checked(20));
    Take(Replaced(Checked(20)), Enqueue(2, 0));
    assert Next(Replaced(Checked(20)), Enqueue(2, 0)) == Enqueued(20, Writing(10, false));
  }

  /** The stored key can part from the pending events with no crash and no operator: process 1 ends
      its write into a file that was moved aside, and then stores the fingerprint of a key that is
      neither in the file nor behind the pending event. */
  lemma SlowCreatorStrandsPending() returns (acts: seq<Action>)
    ensures Untampered(acts) && !Coherent(Exec(acts))
    ensures Exec(acts).file == Valid(20) && Exec(acts).fingerprint == Some(10)
      && Exec(acts).events == map[0 := Event(20, true)]
  {
    ResetterEnqueues();
    Move(Enqueued(20, Writing(10, false)), 1, Enqueued(20, FirstWrite(10)));
    var stranded := Enqueued(10, Open(10));
    Move(Enqueued(20, FirstWrite(10)), 1, stranded);
    acts :| Untampered(acts) && Exec(acts) == stranded;
    assert 0 in stranded.events && stranded.events[0].pending;
  }
}
