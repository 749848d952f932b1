/** What guards a process's steps: a failed check latches and takes nothing along, an event is written under
    the stored key or not at all, an opener that comes late still ends with the key of the others, and a
    reset token is good for one reset. */
module DedupeGuards {
  import opened Options
  import opened DedupeKeys
  import opened DedupeOpen
  import opened Stepping

  // ---- Checks ----

  /** What the process last saw is no longer so. */
  predicate CheckFails(w: World, p: Proc)
    requires p in w.procs
  {
    match w.procs[p].pc
    case RetryMissing => !w.file.Valid?
    case AwaitKey(_) => !w.file.Valid?
    case TxVerify(key) => w.file != Valid(key)
    case PostFile(key, _, _) => w.file != Valid(key)
    case PostFingerprint(key, _, _) => w.fingerprint != Some(key)
    case StateRead(_) => !w.file.Valid?
    case StateCommit(key, _) => w.file != Valid(key)
    case _ => false
  }

  /** A process whose check fails is latched; it gives back the lock if it has it, and changes nothing else. */
  lemma FailedCheckLatches(w: World, p: Proc, minted: Key)
    requires p in w.procs && CheckFails(w, p)
    requires w.procs[p].pc.RetryMissing? || w.procs[p].pc.PostFile? || w.procs[p].pc.PostFingerprint? ==>
      w.lock != Some(p)
    ensures Next(w, Advance(p, minted)) ==
      w.(procs := w.procs[p := w.procs[p].(pc := Latched)], lock := if w.lock == Some(p) then None else w.lock)
  {
  }

  /** An open process that looks at the file is ready to write if its key is there, and latched if not. */
  lemma LooksFirst(w: World, p: Proc, key: Key)
    requires p in w.procs && w.procs[p].pc == Open(key) && w.lock != Some(p)
    ensures Next(w, CheckFile(p)) ==
      w.(procs := w.procs[p := w.procs[p].(pc := if w.file == Valid(key) then Checked(key) else Latched)])
  {
  }

  /** And it writes exactly if no reset is under way and its key is the stored one. While a reset is under way
      it waits, and under another stored key it is latched; either way no event is touched. */
  lemma WritesExactly(w: World, p: Proc, key: Key, e: EventId)
    requires p in w.procs && w.procs[p].pc == Checked(key) && w.lock != Some(p)
    ensures var (event, a) := if e in w.events then (w.events[e].(key := key), Retarget(p, e))
        else (Event(key, true), Enqueue(p, e));
      Next(w, a) ==
        if w.lock.Some? then w
        else if w.fingerprint == Some(key) then
          w.(events := w.events[e := event], procs := w.procs[p := w.procs[p].(pc := Open(key))])
        else w.(procs := w.procs[p := w.procs[p].(pc := Latched)])
  {
  }

  // ---- Coming late ----

  /** Before any decision but to look again. */
  predicate Undecided(pc: Pc, key: Key) {
    || pc == ReadMarker || pc == ReadKey(false) || pc == RetryKey(false) || pc == RetryMissing || pc == Verify(key)
    || pc == Create(false) || pc == AwaitKey(false) || pc == FirstWrite(key)
  }

  lemma StoresFingerprint(w: World, p: Proc, minted: Key, key: Key)
    requires p in w.procs && w.lock == None && w.fingerprint == Some(key)
    requires Leads(Alone(p, minted), w, Goto(w, p, FirstWrite(key)))
    ensures Leads(Alone(p, minted), w, Goto(w, p, Open(key)))
  {
    assert Goto(w.(fingerprint := Some(key)), p, Open(key)) == Goto(w, p, Open(key));
    Go(w, p, minted, Goto(w, p, FirstWrite(key)), Goto(w, p, Open(key)));
  }

  lemma Verifies(w: World, p: Proc, minted: Key, key: Key)
    requires p in w.procs && w.fingerprint == Some(key) && Leads(Alone(p, minted), w, Goto(w, p, Verify(key)))
    ensures Leads(Alone(p, minted), w, Goto(w, p, Open(key)))
  {
    Go(w, p, minted, Goto(w, p, Verify(key)), Goto(w, p, Open(key)));
  }

  lemma Awaits(w: World, p: Proc, minted: Key, key: Key)
    requires p in w.procs && w.lock == None && w.file == Valid(key) && w.fingerprint == Some(key)
    requires Leads(Alone(p, minted), w, Goto(w, p, AwaitKey(false)))
    ensures Leads(Alone(p, minted), w, Goto(w, p, Open(key)))
  {
    Go(w, p, minted, Goto(w, p, AwaitKey(false)), Goto(w, p, FirstWrite(key)));
    StoresFingerprint(w, p, minted, key);
  }

  /** An opener that another one overtook - it found no key, or a corrupt one, or lost the race to create it -
      ends open with the key that is there by then, and changes nothing. */
  lemma CatchesUp(w: World, p: Proc, minted: Key, key: Key)
    requires p in w.procs && Undecided(w.procs[p].pc, key) && w.lock == None
    requires w.file == Valid(key) && w.fingerprint == Some(key) && w.marker == None
    ensures Leads(Alone(p, minted), w, w.(procs := w.procs[p := w.procs[p].(pc := Open(key))]))
  {
    var pc := w.procs[p].pc;
    Here(Alone(p, minted), w);
    assert Goto(w, p, pc) == w;
    if pc.FirstWrite? {
      StoresFingerprint(w, p, minted, key);
    } else if pc.AwaitKey? || pc.Create? {
      if pc.Create? { Go(w, p, minted, w, Goto(w, p, AwaitKey(false))); }
      Awaits(w, p, minted, key);
    } else {
      if pc.ReadMarker? {
        Go(w, p, minted, w, Goto(w, p, ReadKey(false)));
        Go(w, p, minted, Goto(w, p, ReadKey(false)), Goto(w, p, Verify(key)));
      } else if !pc.Verify? {
        Go(w, p, minted, w, Goto(w, p, Verify(key)));
      }
      Verifies(w, p, minted, key);
    }
  }

  lemma Rechecks(w: World, p: Proc, minted: Key, key: Key, t: Token)
    requires p in w.procs && w.file == Valid(key) && w.fingerprint == Some(key)
    requires Leads(Alone(p, minted), w, Goto(w, p, PostFile(key, false, t)))
    ensures Leads(Alone(p, minted), w, Goto(w, p, Open(key)))
  {
    Go(w, p, minted, Goto(w, p, PostFile(key, false, t)), Goto(w, p, PostFingerprint(key, false, t)));
    Go(w, p, minted, Goto(w, p, PostFingerprint(key, false, t)), Goto(w, p, Open(key)));
  }

  lemma SeesRepaired(w: World, p: Proc, minted: Key, mode: Mode, key: Key)
    requires p in w.procs && w.lock == None && w.marker == None && w.file == Valid(key) && w.fingerprint == Some(key)
    ensures RunOpen(Goto(w.(lock := Some(p)), p, TxRead(mode)), p, minted) ==
      Goto(w, p, PostFile(key, false, TokenInUse(w, p)))
  {
  }

  /** A reset that another one has made unnecessary opens with the key that is there, and changes nothing. */
  lemma FindsRepaired(w: World, p: Proc, minted: Key, mode: Mode, key: Key)
    requires p in w.procs && w.procs[p].pc == Reset(mode) && w.lock == None && w.marker == None
    requires w.file == Valid(key) && w.fingerprint == Some(key)
    ensures Leads(Alone(p, minted), w, w.(procs := w.procs[p := w.procs[p].(pc := Open(key))]))
  {
    var (t, held) := (TokenInUse(w, p), w.(lock := Some(p)));
    Here(Alone(p, minted), w);
    assert Goto(w, p, Reset(mode)) == w;
    LeadsHeld(w, p, minted, mode);
    SeesRepaired(w, p, minted, mode, key);
    Go(w, p, minted, Goto(held, p, TxRead(mode)), Goto(w, p, PostFile(key, false, t)));
    Rechecks(w, p, minted, key, t);
  }

  /** The world in which p has closed all pending events under key and spent the marked token, or else token. */
  function RowsReset(w: World, p: Proc, key: Key, token: Token): World
    requires p in w.procs
  {
    var spent := if w.marker.Some? then w.marker.value else token;
    var events := map e | e in w.events :: Event(w.events[e].key, false);
    World(w.file, Some(key), None, w.consumed + {spent}, events, None, w.procs[p := w.procs[p].(pc := Open(key))])
  }

  lemma CommitsRows(w: World, p: Proc, minted: Key, key: Key, token: Token)
    requires p in w.procs && w.lock == None && w.file == Valid(key)
    ensures var spent := if w.marker.Some? then w.marker.value else token;
      RunOpen(Goto(w.(lock := Some(p)), p, StateCommit(key, spent)), p, minted) == RowsReset(w, p, key, token)
  {
  }

  /** Once a process is to reset the alert rows it does that under the key in the file, also if another process has
      reset them in between. */
  lemma ResetsRows(w: World, p: Proc, minted: Key, key: Key, token: Token)
    requires p in w.procs && w.procs[p].pc == ResetState(token) && w.lock == None && w.file == Valid(key)
    ensures Leads(Alone(p, minted), w, RowsReset(w, p, key, token))
  {
    var (spent, held) := (if w.marker.Some? then w.marker.value else token, w.(lock := Some(p)));
    Here(Alone(p, minted), w);
    Go(w, p, minted, w, Goto(held, p, StateRead(spent)));
    Go(w, p, minted, Goto(held, p, StateRead(spent)), Goto(held, p, StateCommit(key, spent)));
    CommitsRows(w, p, minted, key, token);
    Go(w, p, minted, Goto(held, p, StateCommit(key, spent)), RowsReset(w, p, key, token));
  }

  /** An error on the way latches the process and gives the lock back; a key file it has not written whole is
      removed again, so that the next open finds none rather than a corrupt one. */
  lemma FailureLatches(w: World, p: Proc)
    requires p in w.procs
    ensures Next(w, Fail(p)) == w.(
      procs := w.procs[p := w.procs[p].(pc := Latched)], lock := if w.lock == Some(p) then None else w.lock,
      file := if w.procs[p].pc.Writing? then Missing else w.file)
  {
  }

  // ---- One reset for one token ----

  /** The marker of a reset under way does not name a token that is spent. */
  predicate SpentStaysSpent(w: World) {
    w.marker.Some? ==> w.marker.value !in w.consumed
  }

  /** From the look at the ledger to the commit of the marker. */
  predicate InReset(pc: Pc) {
    match pc
    case TxClear => true
    case Create(inTx) => inTx
    case AwaitKey(inTx) => inTx
    case Writing(_, inTx) => inTx
    case TxVerify(_) => true
    case TxCommit(_) => true
    case _ => false
  }

  /** A process in a transaction has the lock, and knows the marker's token where it is to spend one. */
  predicate Guarded(w: World, p: Proc, pc: Pc) {
    && (InReset(pc) || pc.TxRead? || pc.StateRead? || pc.StateCommit? ==> w.lock == Some(p))
    && (pc.StateRead? || pc.StateCommit? ==> w.marker.Some? ==> w.marker == Some(pc.token))
  }

  ghost predicate LockInv(w: World) {
    forall p | p in w.procs :: Guarded(w, p, w.procs[p].pc)
  }

  /** A step of p leaves other processes alone, and also lock, marker and ledger if another one has the lock. */
  ghost predicate OwnStep(w: World, v: World, p: Proc) {
    && (forall q | q != p :: q in v.procs <==> q in w.procs)
    && (forall q | q in v.procs && q != p :: v.procs[q] == w.procs[q])
    && (w.lock.Some? && w.lock != Some(p) ==> v.marker == w.marker && v.consumed == w.consumed && v.lock == w.lock)
  }

  lemma OthersGuarded(w: World, v: World, p: Proc)
    requires LockInv(w) && OwnStep(w, v, p) && (p in v.procs ==> Guarded(v, p, v.procs[p].pc))
    ensures LockInv(v)
  {
    forall q | q in v.procs && q != p ensures Guarded(v, q, v.procs[q].pc) {
      assert Guarded(w, q, w.procs[q].pc);
    }
  }

  /** Steps that neither take the lock nor follow from having it. */
  predicate Lockless(pc: Pc) {
    && !InReset(pc) && !pc.TxRead? && !pc.Reset? && !pc.ResetState? && !pc.StateRead? && !pc.StateCommit?
  }

  lemma LocklessFrame(w: World, p: Proc, minted: Key)
    requires p in w.procs && Lockless(w.procs[p].pc)
    ensures var v := RunOpen(w, p, minted);
      v.marker == w.marker && v.consumed == w.consumed && (w.lock.Some? ==> v.lock == w.lock || w.lock == Some(p))
  {
  }

  lemma LocklessOwn(w: World, p: Proc, minted: Key)
    requires p in w.procs && Lockless(w.procs[p].pc)
    ensures var v := RunOpen(w, p, minted);
      v.procs.Keys == w.procs.Keys && forall q | q in w.procs && q != p :: v.procs[q] == w.procs[q]
  {
  }

  lemma LocklessStays(w: World, p: Proc, minted: Key)
    requires p in w.procs && Lockless(w.procs[p].pc)
    ensures var v := RunOpen(w, p, minted);
      p in v.procs && (Lockless(v.procs[p].pc) || v.procs[p].pc.Reset? || v.procs[p].pc.ResetState?)
  {
  }

  lemma ReadsUnderLock(w: World, p: Proc, minted: Key)
    requires p in w.procs && w.procs[p].pc.TxRead? && w.lock == Some(p)
    ensures var v := RunOpen(w, p, minted);
      OwnStep(w, v, p) && p in v.procs && Guarded(v, p, v.procs[p].pc)
  {
  }

  lemma TakesLock(w: World, p: Proc, minted: Key)
    requires LockInv(w) && p in w.procs
    requires w.procs[p].pc.Reset? || w.procs[p].pc.ResetState? || w.procs[p].pc.StateRead? || w.procs[p].pc.StateCommit?
    ensures var v := RunOpen(w, p, minted);
      OwnStep(w, v, p) && p in v.procs && Guarded(v, p, v.procs[p].pc)
  {
    assert Guarded(w, p, w.procs[p].pc);
  }

  lemma MakesKey(w: World, p: Proc, minted: Key)
    requires p in w.procs && InReset(w.procs[p].pc) && w.lock == Some(p)
    ensures var v := RunOpen(w, p, minted);
      OwnStep(w, v, p) && p in v.procs && Guarded(v, p, v.procs[p].pc)
  {
  }

  lemma OpenIsGuarded(w: World, p: Proc, minted: Key)
    requires LockInv(w) && p in w.procs
    ensures OwnStep(w, RunOpen(w, p, minted), p) && LockInv(RunOpen(w, p, minted))
  {
    var pc := w.procs[p].pc;
    assert Guarded(w, p, pc);
    if Lockless(pc) {
      LocklessFrame(w, p, minted);
      LocklessOwn(w, p, minted);
      LocklessStays(w, p, minted);
    } else if pc.TxRead? {
      ReadsUnderLock(w, p, minted);
    } else if InReset(pc) {
      MakesKey(w, p, minted);
    } else {
      TakesLock(w, p, minted);
    }
    OthersGuarded(w, RunOpen(w, p, minted), p);
  }

  lemma StopIsGuarded(w: World, p: Proc)
    requires LockInv(w)
    ensures OwnStep(w, Next(w, Crash(p)), p) && LockInv(Next(w, Crash(p)))
    ensures OwnStep(w, Next(w, Fail(p)), p) && LockInv(Next(w, Fail(p)))
  {
    OthersGuarded(w, Next(w, Crash(p)), p);
    OthersGuarded(w, Next(w, Fail(p)), p);
  }

  lemma LookIsGuarded(w: World, p: Proc)
    requires LockInv(w)
    ensures OwnStep(w, Next(w, CheckFile(p)), p) && LockInv(Next(w, CheckFile(p)))
  {
    OthersGuarded(w, Next(w, CheckFile(p)), p);
  }

  lemma WriteIsGuarded(w: World, p: Proc, e: EventId, pending: bool)
    requires LockInv(w) && p in w.procs && w.procs[p].pc.Checked?
    ensures OwnStep(w, CommitEvent(w, p, e, pending), p) && LockInv(CommitEvent(w, p, e, pending))
  {
    OthersGuarded(w, CommitEvent(w, p, e, pending), p);
  }

  /** The process that acts, where there is one. */
  function Actor(a: Action): Option<Proc> {
    match a
    case Start(p, _, _) => Some(p)
    case Crash(p) => Some(p)
    case Fail(p) => Some(p)
    case Advance(p, _) => Some(p)
    case CheckFile(p) => Some(p)
    case Enqueue(p, _) => Some(p)
    case Retarget(p, _) => Some(p)
    case _ => None
  }

  /** p is where it was, and if it has the lock so are lock, marker and ledger. */
  predicate Untouched(w: World, v: World, p: Proc) {
    && (p in v.procs <==> p in w.procs) && (p in v.procs ==> v.procs[p] == w.procs[p])
    && (w.lock == Some(p) && p in w.procs ==> v.marker == w.marker && v.consumed == w.consumed && v.lock == w.lock)
  }

  lemma EventIsGuarded(w: World, a: Action)
    requires LockInv(w) && (a.Enqueue? || a.Retarget?)
    ensures OwnStep(w, Next(w, a), a.p) && LockInv(Next(w, a))
  {
    if a.p in w.procs && w.procs[a.p].pc.Checked? && (a.Retarget? <==> a.e in w.events) {
      WriteIsGuarded(w, a.p, a.e, if a.Enqueue? then true else w.events[a.e].pending);
    }
  }

  lemma StepIsGuarded(w: World, a: Action)
    requires LockInv(w)
    ensures LockInv(Next(w, a))
    ensures forall p: Proc | Actor(a) != Some(p) :: Untouched(w, Next(w, a), p)
  {
    match a
    case Start(p, _, _) => if p !in w.procs { OthersGuarded(w, Next(w, a), p); }
    case Crash(p) => StopIsGuarded(w, p);
    case Fail(p) => StopIsGuarded(w, p);
    case Advance(p, minted) => if p in w.procs { OpenIsGuarded(w, p, minted); }
    case CheckFile(p) => LookIsGuarded(w, p);
    case Enqueue(_, _) => EventIsGuarded(w, a);
    case Retarget(_, _) => EventIsGuarded(w, a);
    case _ =>
  }

  lemma {:induction false} RunIsGuarded(acts: seq<Action>)
    ensures LockInv(Exec(acts))
  {
    if acts != [] {
      RunIsGuarded(acts[..|acts| - 1]);
      StepIsGuarded(Exec(acts[..|acts| - 1]), acts[|acts| - 1]);
    }
  }

  /** p is resetting on a spent token: there is no marker of a reset under way, and its own token was spent. */
  predicate Owes(w: World, p: Proc) {
    p in w.procs && InReset(w.procs[p].pc) && w.marker == None && w.procs[p].token in w.consumed
  }

  /** A reset that came to complete a marked one finds that marker gone under the lock, but a key in the file
      that is not the stored one, and its own token spent. */
  predicate Rearms(w: World, a: Action) {
    && a.Advance? && a.p in w.procs && w.procs[a.p].pc == TxRead(PreferExisting)
    && w.file.Valid? && w.fingerprint != Some(w.file.key)
    && w.marker == None && w.procs[a.p].token in w.consumed
  }

  lemma ReadOwes(w: World, p: Proc, minted: Key)
    requires p in w.procs && w.procs[p].pc.TxRead?
    ensures Owes(RunOpen(w, p, minted), p) <==> Rearms(w, Advance(p, minted))
  {
  }

  lemma MakesKeyOwes(w: World, p: Proc, minted: Key)
    requires p in w.procs && InReset(w.procs[p].pc) && w.lock == Some(p)
    ensures var v := RunOpen(w, p, minted);
      && (Owes(v, p) ==> Owes(w, p))
      && (Owes(w, p) && v.lock == Some(p) ==> Owes(v, p))
  {
  }

  lemma RestOwesNot(w: World, p: Proc, minted: Key)
    requires p in w.procs && !InReset(w.procs[p].pc) && !w.procs[p].pc.TxRead?
    ensures !Owes(RunOpen(w, p, minted), p)
  {
    if Lockless(w.procs[p].pc) { LocklessStays(w, p, minted); }
  }

  /** A process comes to owe only by rearming, and then does as long as it keeps the lock. */
  lemma OwesStep(w: World, a: Action, p: Proc)
    requires LockInv(w)
    ensures var v := Next(w, a);
      && (Owes(v, p) ==> Owes(w, p) || (Rearms(w, a) && a.p == p))
      && (Rearms(w, a) && a.p == p ==> Owes(v, p))
      && (Owes(w, p) && v.lock == Some(p) ==> Owes(v, p))
  {
    if p in w.procs { assert Guarded(w, p, w.procs[p].pc); }
    if Actor(a) != Some(p) {
      StepIsGuarded(w, a);
      assert Untouched(w, Next(w, a), p);
    } else if a.Advance? && p in w.procs {
      if w.procs[p].pc.TxRead? {
        ReadOwes(w, p, a.minted);
      } else if InReset(w.procs[p].pc) {
        MakesKeyOwes(w, p, a.minted);
      } else {
        RestOwesNot(w, p, a.minted);
      }
    }
  }

  /** The step that marks a spent token. */
  predicate MarksSpent(w: World, a: Action) {
    a.Advance? && Owes(w, a.p) && w.procs[a.p].pc.TxCommit?
  }

  lemma MarkerFrame(w: World, p: Proc, minted: Key)
    requires p in w.procs && !w.procs[p].pc.TxCommit? && !w.procs[p].pc.StateCommit?
    ensures RunOpen(w, p, minted).marker == w.marker && RunOpen(w, p, minted).consumed == w.consumed
  {
  }

  lemma SpentStep(w: World, a: Action)
    requires SpentStaysSpent(w)
    ensures SpentStaysSpent(Next(w, a)) <==> !MarksSpent(w, a)
  {
    if a.Advance? && a.p in w.procs && !w.procs[a.p].pc.TxCommit? && !w.procs[a.p].pc.StateCommit? {
      MarkerFrame(w, a.p, a.minted);
    }
  }

  /** p has the lock in all states after step n up to the one before step m. */
  predicate KeepsLock(acts: seq<Action>, n: nat, m: nat, p: Proc)
    requires m <= |acts|
  {
    forall k | n < k <= m :: Exec(acts[..k]).lock == Some(p)
  }

  /** The reset that rearmed at n commits its marker at m, having kept the lock. */
  predicate Reuses(acts: seq<Action>, n: nat, m: nat) {
    && n < m < |acts| && Rearms(Exec(acts[..n]), acts[n]) && acts[m].Advance? && acts[m].p == acts[n].p
    && acts[m].p in Exec(acts[..m]).procs && Exec(acts[..m]).procs[acts[m].p].pc.TxCommit?
    && KeepsLock(acts, n, m, acts[n].p)
  }

  lemma OwesStepAt(acts: seq<Action>, m: nat, p: Proc)
    requires m < |acts|
    ensures var (w, v) := (Exec(acts[..m]), Exec(acts[..m + 1]));
      && (Owes(v, p) ==> v.lock == Some(p) && (Owes(w, p) || (Rearms(w, acts[m]) && acts[m].p == p)))
      && (Rearms(w, acts[m]) && acts[m].p == p ==> Owes(v, p))
      && (Owes(w, p) && v.lock == Some(p) ==> Owes(v, p))
  {
    RunIsGuarded(acts[..m]);
    RunIsGuarded(acts[..m + 1]);
    ExecNext(acts, m);
    OwesStep(Exec(acts[..m]), acts[m], p);
    if Owes(Exec(acts[..m + 1]), p) { assert Guarded(Exec(acts[..m + 1]), p, Exec(acts[..m + 1]).procs[p].pc); }
  }

  lemma LockSnoc(acts: seq<Action>, n: nat, m: nat, p: Proc)
    requires n < m <= |acts| && KeepsLock(acts, n, m - 1, p) && Exec(acts[..m]).lock == Some(p)
    ensures KeepsLock(acts, n, m, p)
  {
  }

  /** Where a debt comes from. */
  lemma {:induction false} OwesSince(acts: seq<Action>, m: nat, p: Proc) returns (n: nat)
    requires m <= |acts| && Owes(Exec(acts[..m]), p)
    ensures n < m && Rearms(Exec(acts[..n]), acts[n]) && acts[n].p == p
    ensures KeepsLock(acts, n, m, p)
  {
    assert m > 0;
    OwesStepAt(acts, m - 1, p);
    if Owes(Exec(acts[..m - 1]), p) { n := OwesSince(acts, m - 1, p); } else { n := m - 1; }
    LockSnoc(acts, n, m, p);
  }

  lemma {:induction false} OwesUntil(acts: seq<Action>, n: nat, m: nat, p: Proc)
    requires n < m <= |acts| && Rearms(Exec(acts[..n]), acts[n]) && acts[n].p == p && KeepsLock(acts, n, m, p)
    ensures Owes(Exec(acts[..m]), p)
    decreases m
  {
    assert Exec(acts[..m]).lock == Some(p);
    OwesStepAt(acts, m - 1, p);
    if n < m - 1 { OwesUntil(acts, n, m - 1, p); }
  }

  lemma MarksIsReuse(acts: seq<Action>, m: nat)
    requires m < |acts|
    ensures MarksSpent(Exec(acts[..m]), acts[m]) <==> exists n :: Reuses(acts, n, m)
  {
    if MarksSpent(Exec(acts[..m]), acts[m]) {
      var n := OwesSince(acts, m, acts[m].p);
      assert Reuses(acts, n, m);
    }
    if n :| Reuses(acts, n, m) { OwesUntil(acts, n, m, acts[m].p); }
  }

  predicate AlwaysSpent(acts: seq<Action>, i: nat)
    requires i <= |acts|
  {
    forall k | 0 <= k <= i :: SpentStaysSpent(Exec(acts[..k]))
  }

  predicate NeverReused(acts: seq<Action>, i: nat) {
    forall n, m | 0 <= n < m < i :: !Reuses(acts, n, m)
  }

  /** Over every run, whatever crashes, races, resets and tokens there are: no spent token ever marks a reset
      again, if and only if no reset that rearmed gets to commit. */
  lemma {:induction false} SpentExactly(acts: seq<Action>, i: nat)
    requires i <= |acts|
    ensures AlwaysSpent(acts, i) <==> NeverReused(acts, i)
  {
    if i == 0 {
      assert acts[..0] == [];
    } else {
      SpentExactly(acts, i - 1);
      ExecNext(acts, i - 1);
      MarksIsReuse(acts, i - 1);
      if SpentStaysSpent(Exec(acts[..i - 1])) { SpentStep(Exec(acts[..i - 1]), acts[i - 1]); }
    }
  }

  /** And nothing else is in the way of that: left alone, a reset that rearms goes on to mark its spent token. */
  lemma RearmedIsMarked(w: World, p: Proc, minted: Key)
    requires p in w.procs && w.lock == Some(p) && Rearms(w, Advance(p, minted))
    ensures exists v :: Leads(Alone(p, minted), w, v) && !SpentStaysSpent(v)
  {
    var (key, token) := (w.file.key, w.procs[p].token);
    Here(Alone(p, minted), w);
    Go(w, p, minted, w, Goto(w, p, TxVerify(key)));
    Go(w, p, minted, Goto(w, p, TxVerify(key)), Goto(w, p, TxCommit(key)));
    LeadsCommitted(w, p, minted, w, key);
    assert !SpentStaysSpent(Goto(w.(fingerprint := Some(key), marker := Some(token), lock := None), p,
                                 PostFile(key, true, token)));
  }

  // ---- A run that spends a token twice ----

  ghost predicate Occurs(w: World) {
    exists acts :: Exec(acts) == w
  }

  lemma OccursNext(w: World, a: Action)
    requires Occurs(w)
    ensures Occurs(Next(w, a))
  {
    var acts :| Exec(acts) == w;
    assert (acts + [a])[..|acts|] == acts && Exec(acts + [a]) == Next(w, a);
  }

  lemma {:induction false} OccursAfter(w: World, p: Proc, minted: Key, n: nat)
    requires Occurs(w)
    ensures Occurs(Iterate(Alone(p, minted), w, n))
  {
    if n > 0 {
      OccursAfter(w, p, minted, n - 1);
      OccursNext(Iterate(Alone(p, minted), w, n - 1), Advance(p, minted));
    }
  }

  lemma OccursAlone(w: World, p: Proc, minted: Key, v: World)
    requires Occurs(w) && Leads(Alone(p, minted), w, v)
    ensures Occurs(v)
  {
    var n: nat :| Iterate(Alone(p, minted), w, n) == v;
    OccursAfter(w, p, minted, n);
  }

  /** Process 1 is resetting with token t; marker and key 10 are committed, the alert rows not yet reset. */
  const MARKED := World(Valid(10), Some(10), Some("t"), {}, map[], None,
                        map[1 := Process(true, "t", PostFile(10, true, "t"))])

  /** Process 1 starts over a corrupt key file. */
  const STARTED := World(Corrupt(0), None, None, {}, map[], None, map[1 := Process(true, "t", ReadMarker)])

  lemma StartedOccurs()
    ensures Occurs(STARTED)
  {
    var empty := EMPTY.(file := Corrupt(0));
    assert Exec([]) == EMPTY && Next(EMPTY, Tamper(Corrupt(0))) == empty;
    OccursNext(EMPTY, Tamper(Corrupt(0)));
    OccursNext(empty, Start(1, true, "t"));
    assert Next(empty, Start(1, true, "t")) == STARTED;
  }

  lemma MarkedOccurs()
    ensures Occurs(MARKED)
  {
    StartedOccurs();
    var w := STARTED;
    LeadsRead(w, 1, 10);
    Go(w, 1, 10, Goto(w, 1, RetryKey(false)), Goto(w, 1, Reset(ReplaceCorrupt)));
    LeadsCleared(w, 1, 10, ReplaceCorrupt);
    var held := w.(lock := Some(1), file := Missing);
    LeadsCreated(w, 1, 10, held);
    LeadsCommitted(w, 1, 10, held.(file := Valid(10)), 10);
    OccursAlone(w, 1, 10, MARKED);
  }

  /** Process 2, with the same token, has read the marker and set out to complete the reset. */
  function Both(w: World, pc: Pc): World {
    w.(procs := w.procs[2 := Process(true, "t", pc)])
  }

  lemma BothOccur()
    ensures Occurs(Both(MARKED, Reset(PreferExisting)))
  {
    MarkedOccurs();
    OccursNext(MARKED, Start(2, true, "t"));
    var w := Both(MARKED, ReadMarker);
    assert Next(MARKED, Start(2, true, "t")) == w;
    LeadsRead(w, 2, 20);
    OccursAlone(w, 2, 20, Both(MARKED, Reset(PreferExisting)));
  }

  /** Process 1 has completed it, and the key file was restored from a backup. */
  predicate Restored(w: World) {
    && 2 in w.procs && w.procs[2] == Process(true, "t", Reset(PreferExisting)) && w.lock == None
    && w.marker == None && "t" in w.consumed && w.file == Valid(99) && w.fingerprint == Some(10)
  }

  lemma RestoredOccurs()
    ensures exists w :: Occurs(w) && Restored(w)
  {
    var w := Both(MARKED, Reset(PreferExisting));
    BothOccur();
    Here(Alone(1, 10), w);
    assert Goto(w, 1, PostFile(10, true, "t")) == w;
    LeadsRechecked(w, 1, 10, w, 10, "t");
    LeadsRestarted(w, 1, 10, w, 10, "t");
    var v := Restarted(w, 1, 10);
    OccursAlone(w, 1, 10, v);
    OccursNext(v, Tamper(Valid(99)));
    assert Restored(Next(v, Tamper(Valid(99))));
  }

  /** Then process 2 goes on, and marks the spent token. */
  lemma SpentTokenReused() returns (acts: seq<Action>)
    ensures !SpentStaysSpent(Exec(acts))
  {
    RestoredOccurs();
    var w :| Occurs(w) && Restored(w);
    Here(Alone(2, 20), w);
    assert Goto(w, 2, Reset(PreferExisting)) == w;
    LeadsHeld(w, 2, 20, PreferExisting);
    var u := Goto(w.(lock := Some(2)), 2, TxRead(PreferExisting));
    OccursAlone(w, 2, 20, u);
    RearmedIsMarked(u, 2, 20);
    var v :| Leads(Alone(2, 20), u, v) && !SpentStaysSpent(v);
    OccursAlone(u, 2, 20, v);
    acts :| Exec(acts) == v;
  }
}
