/** What an open of the store comes to when no other process moves in between: which key it ends
    with, or that alerting stays latched - decided in one look at the world it starts in. */
module DedupeOpen {
  import opened Options
  import opened DedupeKeys
  import opened Stepping

  /** The process with a completed reset: all pending events closed, the marker gone, and the token spent that
      the marker names, or else its own. */
  function Restarted(w: World, p: Proc, key: Key): World
    requires p in w.procs
  {
    var token := if w.marker.Some? then w.marker.value else w.procs[p].token;
    var events := map e | e in w.events :: Event(w.events[e].key, false);
    Goto(w.(file := Valid(key), fingerprint := Some(key), marker := None, consumed := w.consumed + {token},
            events := events), p, Open(key))
  }

  /** A pending reset is completed, with the key in the file if there is one. Otherwise a key file that
      matches the fingerprint is used, as is one without fingerprint and rows, and a key is created where
      there is nothing at all. All else needs a reset, which needs leave and an unspent token. */
  function OpenResult(w: World, p: Proc, minted: Key): World
    requires p in w.procs
  {
    if w.marker.Some? then Restarted(w, p, if w.file.Valid? then w.file.key else minted)
    else if w.file.Valid? && (w.fingerprint == Some(w.file.key) || (w.fingerprint == None && w.events == map[])) then
      Goto(w.(fingerprint := Some(w.file.key)), p, Open(w.file.key))
    else if w.file == Missing && w.fingerprint == None && w.events == map[] then
      Goto(w.(file := Valid(minted), fingerprint := Some(minted)), p, Open(minted))
    else if w.procs[p].reset && w.procs[p].token !in w.consumed then Restarted(w, p, minted)
    else Goto(w, p, Latched)
  }

  /** p runs, and nobody else. */
  function Alone(p: Proc, minted: Key): World -> World {
    w => Next(w, Advance(p, minted))
  }

  lemma Go(w: World, p: Proc, minted: Key, u: World, v: World)
    requires Leads(Alone(p, minted), w, u) && p in u.procs && RunOpen(u, p, minted) == v
    ensures Leads(Alone(p, minted), w, v)
  {
    assert Alone(p, minted)(u) == v;
    Hop(Alone(p, minted), w, u, v);
  }

  /** The reset's new key, from the point where the path is free. */
  lemma LeadsCreated(w: World, p: Proc, minted: Key, u: World)
    requires p in u.procs && u.lock == Some(p) && u.file == Missing
    requires Leads(Alone(p, minted), w, Goto(u, p, Create(true)))
    ensures Leads(Alone(p, minted), w, Goto(u.(file := Valid(minted)), p, TxCommit(minted)))
  {
    Go(w, p, minted, Goto(u, p, Create(true)), Goto(u.(file := Corrupt(p)), p, Writing(minted, true)));
    Go(w, p, minted, Goto(u.(file := Corrupt(p)), p, Writing(minted, true)),
      Goto(u.(file := Valid(minted)), p, TxVerify(minted)));
    Go(w, p, minted, Goto(u.(file := Valid(minted)), p, TxVerify(minted)),
      Goto(u.(file := Valid(minted)), p, TxCommit(minted)));
  }

  lemma LeadsCommitted(w: World, p: Proc, minted: Key, u: World, key: Key)
    requires p in u.procs && u.lock == Some(p) && Leads(Alone(p, minted), w, Goto(u, p, TxCommit(key)))
    ensures Leads(Alone(p, minted), w,
      Goto(u.(fingerprint := Some(key), marker := Some(TokenInUse(u, p)), lock := None), p,
        PostFile(key, true, TokenInUse(u, p))))
  {
    Go(w, p, minted, Goto(u, p, TxCommit(key)),
        Goto(u.(fingerprint := Some(key), marker := Some(TokenInUse(u, p)), lock := None), p,
          PostFile(key, true, TokenInUse(u, p))));
  }

  /** The checks after the reset transaction, and the reset of alert rows. */
  lemma LeadsRechecked(w: World, p: Proc, minted: Key, u: World, key: Key, token: Token)
    requires p in u.procs && u.lock == None && u.file == Valid(key) && u.fingerprint == Some(key)
    requires Leads(Alone(p, minted), w, Goto(u, p, PostFile(key, true, token)))
    ensures Leads(Alone(p, minted), w, Goto(u, p, ResetState(token)))
  {
    Go(w, p, minted, Goto(u, p, PostFile(key, true, token)), Goto(u, p, PostFingerprint(key, true, token)));
    Go(w, p, minted, Goto(u, p, PostFingerprint(key, true, token)), Goto(u, p, ResetState(token)));
  }

  lemma LeadsLocked(w: World, p: Proc, minted: Key, u: World, key: Key, token: Token)
    requires p in u.procs && u.lock == None && u.file == Valid(key) && u.marker.Some?
    requires Leads(Alone(p, minted), w, Goto(u, p, ResetState(token)))
    ensures Leads(Alone(p, minted), w, Goto(u.(lock := Some(p)), p, StateCommit(key, u.marker.value)))
  {
    var (t, held) := (u.marker.value, u.(lock := Some(p)));
    Go(w, p, minted, Goto(u, p, ResetState(token)), Goto(held, p, StateRead(t)));
    Go(w, p, minted, Goto(held, p, StateRead(t)), Goto(held, p, StateCommit(key, t)));
  }

  /** The commit that closes the pending events and clears the marker. */
  lemma RestartCommit(u: World, p: Proc, minted: Key, key: Key)
    requires p in u.procs && u.lock == None && u.file == Valid(key) && u.fingerprint == Some(key) && u.marker.Some?
    ensures RunOpen(Goto(u.(lock := Some(p)), p, StateCommit(key, u.marker.value)), p, minted) == Restarted(u, p, key)
  {
  }

  lemma LeadsRestarted(w: World, p: Proc, minted: Key, u: World, key: Key, token: Token)
    requires p in u.procs && u.lock == None && u.file == Valid(key) && u.fingerprint == Some(key) && u.marker.Some?
    requires Leads(Alone(p, minted), w, Goto(u, p, ResetState(token)))
    ensures Leads(Alone(p, minted), w, Restarted(u, p, key))
  {
    LeadsLocked(w, p, minted, u, key, token);
    RestartCommit(u, p, minted, key);
    Go(w, p, minted, Goto(u.(lock := Some(p)), p, StateCommit(key, u.marker.value)), Restarted(u, p, key));
  }

  lemma LeadsVerified(w: World, p: Proc, minted: Key, key: Key)
    requires p in w.procs && w.file == Valid(key) && w.fingerprint != Some(key)
    requires Leads(Alone(p, minted), w, Goto(w.(lock := Some(p)), p, TxRead(PreferExisting)))
    ensures Leads(Alone(p, minted), w, Goto(w.(lock := Some(p)), p, TxCommit(key)))
  {
    var held := w.(lock := Some(p));
    Go(w, p, minted, Goto(held, p, TxRead(PreferExisting)), Goto(held, p, TxVerify(key)));
    Go(w, p, minted, Goto(held, p, TxVerify(key)), Goto(held, p, TxCommit(key)));
  }

  /** A reset that adopts the key in the file. */
  lemma LeadsAdopted(w: World, p: Proc, minted: Key, key: Key)
    requires p in w.procs && w.lock == None && w.file == Valid(key) && w.marker.Some?
    requires Leads(Alone(p, minted), w, Goto(w, p, Reset(PreferExisting)))
    ensures Leads(Alone(p, minted), w, Restarted(w, p, key))
  {
    var held := w.(lock := Some(p));
    var t := TokenInUse(w, p);
    Go(w, p, minted, Goto(w, p, Reset(PreferExisting)), Goto(held, p, TxRead(PreferExisting)));
    if w.fingerprint == Some(key) {
      Go(w, p, minted, Goto(held, p, TxRead(PreferExisting)), Goto(w, p, PostFile(key, true, t)));
      LeadsRechecked(w, p, minted, w, key, t);
      LeadsRestarted(w, p, minted, w, key, t);
    } else {
      LeadsVerified(w, p, minted, key);
      LeadsCommitted(w, p, minted, held, key);
      var u := w.(fingerprint := Some(key));
      LeadsRechecked(w, p, minted, u, key, t);
      LeadsRestarted(w, p, minted, u, key, t);
      assert Restarted(u, p, key) == Restarted(w, p, key);
    }
  }

  lemma LeadsHeld(w: World, p: Proc, minted: Key, mode: Mode)
    requires p in w.procs && w.lock == None && Leads(Alone(p, minted), w, Goto(w, p, Reset(mode)))
    ensures Leads(Alone(p, minted), w, Goto(w.(lock := Some(p)), p, TxRead(mode)))
  {
    Go(w, p, minted, Goto(w, p, Reset(mode)), Goto(w.(lock := Some(p)), p, TxRead(mode)));
  }

  /** A reset that has to replace the key frees the path first, unless it is free. */
  lemma LeadsCleared(w: World, p: Proc, minted: Key, mode: Mode)
    requires p in w.procs && w.lock == None && mode != PreferExisting && (mode == CreateMissing ==> w.file == Missing)
    requires !(w.file.Valid? && w.fingerprint == Some(w.file.key))
    requires w.marker.Some? || w.procs[p].token !in w.consumed
    requires Leads(Alone(p, minted), w, Goto(w, p, Reset(mode)))
    ensures Leads(Alone(p, minted), w, Goto(w.(lock := Some(p), file := Missing), p, Create(true)))
  {
    var held := w.(lock := Some(p));
    LeadsHeld(w, p, minted, mode);
    if mode == CreateMissing {
      assert held.(file := Missing) == held;
      Go(w, p, minted, Goto(held, p, TxRead(mode)), Goto(held, p, Create(true)));
    } else {
      Go(w, p, minted, Goto(held, p, TxRead(mode)), Goto(held, p, TxClear));
      Go(w, p, minted, Goto(held, p, TxClear), Goto(held.(file := Missing), p, Create(true)));
    }
  }

  lemma LeadsReplaced(w: World, p: Proc, minted: Key, mode: Mode)
    requires p in w.procs && w.lock == None && mode != PreferExisting && (mode == CreateMissing ==> w.file == Missing)
    requires !(w.file.Valid? && w.fingerprint == Some(w.file.key))
    requires w.marker.Some? || w.procs[p].token !in w.consumed
    requires Leads(Alone(p, minted), w, Goto(w, p, Reset(mode)))
    ensures Leads(Alone(p, minted), w, Restarted(w, p, minted))
  {
    var held := w.(lock := Some(p), file := Missing);
    var t := TokenInUse(w, p);
    LeadsCleared(w, p, minted, mode);
    LeadsCreated(w, p, minted, held);
    LeadsCommitted(w, p, minted, held.(file := Valid(minted)), minted);
    var u := w.(file := Valid(minted), fingerprint := Some(minted), marker := Some(t));
    LeadsRechecked(w, p, minted, u, minted, t);
    LeadsRestarted(w, p, minted, u, minted, t);
    assert Restarted(u, p, minted) == Restarted(w, p, minted);
  }

  /** A spent token: the reset is refused under the lock. */
  lemma LeadsRefused(w: World, p: Proc, minted: Key, mode: Mode)
    requires p in w.procs && w.lock == None && mode != PreferExisting
    requires !(w.file.Valid? && w.fingerprint == Some(w.file.key))
    requires w.marker == None && w.procs[p].token in w.consumed
    requires Leads(Alone(p, minted), w, Goto(w, p, Reset(mode)))
    ensures Leads(Alone(p, minted), w, Goto(w, p, Latched))
  {
    var held := w.(lock := Some(p));
    Go(w, p, minted, Goto(w, p, Reset(mode)), Goto(held, p, TxRead(mode)));
    Go(w, p, minted, Goto(held, p, TxRead(mode)), Goto(w, p, Latched));
  }

  /** A reset that is not marked yet ends one way or the other. */
  lemma LeadsReset(w: World, p: Proc, minted: Key, mode: Mode)
    requires p in w.procs && w.lock == None && mode != PreferExisting && (mode == CreateMissing ==> w.file == Missing)
    requires !(w.file.Valid? && w.fingerprint == Some(w.file.key)) && w.marker == None
    requires Leads(Alone(p, minted), w, Goto(w, p, Reset(mode)))
    ensures Leads(Alone(p, minted), w, if w.procs[p].token in w.consumed then Goto(w, p, Latched)
      else Restarted(w, p, minted))
  {
    if w.procs[p].token in w.consumed { LeadsRefused(w, p, minted, mode); } else { LeadsReplaced(w, p, minted, mode); }
  }

  /** From the start to what the first look at the file calls for. */
  lemma LeadsRead(w: World, p: Proc, minted: Key)
    requires p in w.procs && w.procs[p].pc == ReadMarker
    ensures Leads(Alone(p, minted), w, Goto(w, p, AfterRead(w.file, w.marker.Some?, w.procs[p].reset, false)))
  {
    Here(Alone(p, minted), w);
    assert Goto(w, p, ReadMarker) == w;
    Go(w, p, minted, w, Goto(w, p, ReadKey(w.marker.Some?)));
    Go(w, p, minted, Goto(w, p, ReadKey(w.marker.Some?)),
      Goto(w, p, AfterRead(w.file, w.marker.Some?, w.procs[p].reset, false)));
  }

  lemma OpensCorrupt(w: World, p: Proc, minted: Key)
    requires p in w.procs && w.procs[p].pc == ReadMarker && w.lock == None && w.file.Corrupt?
    ensures Leads(Alone(p, minted), w, OpenResult(w, p, minted))
  {
    LeadsRead(w, p, minted);
    var after := AfterRead(w.file, w.marker.Some?, w.procs[p].reset, true);
    Go(w, p, minted, Goto(w, p, RetryKey(w.marker.Some?)), Goto(w, p, after));
    if w.marker.Some? {
      LeadsReplaced(w, p, minted, ReplaceCorrupt);
    } else if w.procs[p].reset {
      LeadsReset(w, p, minted, ReplaceCorrupt);
    }
  }

  lemma OpensUnfingerprinted(w: World, p: Proc, minted: Key, key: Key)
    requires p in w.procs && w.lock == None && w.file == Valid(key) && w.fingerprint == None && w.marker == None
    requires Leads(Alone(p, minted), w, Goto(w, p, VerifyRows(key)))
    ensures Leads(Alone(p, minted), w, OpenResult(w, p, minted))
  {
    if w.events == map[] {
      Go(w, p, minted, Goto(w, p, VerifyRows(key)), Goto(w, p, FirstWrite(key)));
      Go(w, p, minted, Goto(w, p, FirstWrite(key)), Goto(w.(fingerprint := Some(key)), p, Open(key)));
    } else if w.procs[p].reset {
      Go(w, p, minted, Goto(w, p, VerifyRows(key)), Goto(w, p, Reset(ReplaceExisting)));
      LeadsReset(w, p, minted, ReplaceExisting);
    } else {
      Go(w, p, minted, Goto(w, p, VerifyRows(key)), Goto(w, p, Latched));
    }
  }

  lemma OpensValid(w: World, p: Proc, minted: Key)
    requires p in w.procs && w.procs[p].pc == ReadMarker && w.lock == None && w.file.Valid?
    ensures Leads(Alone(p, minted), w, OpenResult(w, p, minted))
  {
    var key := w.file.key;
    LeadsRead(w, p, minted);
    if w.marker.Some? {
      LeadsAdopted(w, p, minted, key);
    } else {
      Go(w, p, minted, Goto(w, p, Verify(key)), Goto(w, p, AfterVerify(key, w.fingerprint, w.procs[p].reset)));
      if w.fingerprint == None {
        OpensUnfingerprinted(w, p, minted, key);
      } else if w.fingerprint == Some(key) {
        assert w.(fingerprint := Some(key)) == w;
      } else if w.procs[p].reset {
        LeadsReset(w, p, minted, ReplaceExisting);
      }
    }
  }

  /** Nothing there: a key is created and fingerprinted. */
  lemma OpensFresh(w: World, p: Proc, minted: Key)
    requires p in w.procs && w.lock == None && w.file == Missing
    requires Leads(Alone(p, minted), w, Goto(w, p, Create(false)))
    ensures Leads(Alone(p, minted), w, Goto(w.(file := Valid(minted), fingerprint := Some(minted)), p, Open(minted)))
  {
    var made := w.(file := Valid(minted));
    Go(w, p, minted, Goto(w, p, Create(false)), Goto(w.(file := Corrupt(p)), p, Writing(minted, false)));
    Go(w, p, minted, Goto(w.(file := Corrupt(p)), p, Writing(minted, false)), Goto(made, p, FirstWrite(minted)));
    Go(w, p, minted, Goto(made, p, FirstWrite(minted)), Goto(made.(fingerprint := Some(minted)), p, Open(minted)));
  }

  lemma OpensMissing(w: World, p: Proc, minted: Key)
    requires p in w.procs && w.procs[p].pc == ReadMarker && w.lock == None && w.file == Missing
    ensures Leads(Alone(p, minted), w, OpenResult(w, p, minted))
  {
    LeadsRead(w, p, minted);
    if w.marker.Some? {
      LeadsReplaced(w, p, minted, CreateMissing);
    } else {
      var rows := w.events != map[];
      var after := AfterInspection(rows, w.fingerprint, w.procs[p].reset);
      Go(w, p, minted, Goto(w, p, InspectRows), Goto(w, p, InspectFingerprint(rows)));
      Go(w, p, minted, Goto(w, p, InspectFingerprint(rows)), Goto(w, p, after));
      if after.Create? {
        OpensFresh(w, p, minted);
      } else if after.Reset? {
        LeadsReset(w, p, minted, CreateMissing);
      } else if after.RetryMissing? {
        Go(w, p, minted, Goto(w, p, RetryMissing), Goto(w, p, Latched));
      }
    }
  }

  lemma ResultStays(w: World, p: Proc, minted: Key)
    requires p in w.procs
    ensures var v := OpenResult(w, p, minted);
      p in v.procs && (v.procs[p].pc.Open? || v.procs[p].pc.Latched?) && Next(v, Advance(p, minted)) == v
  {
  }

  /** From any world - whatever crashes left of key file, fingerprint, marker and rows - an undisturbed
      open ends exactly as OpenResult says, and stays there. */
  lemma OpensAsDecided(w: World, p: Proc, minted: Key)
    requires p in w.procs && w.procs[p].pc == ReadMarker && w.lock == None
    ensures Leads(Alone(p, minted), w, OpenResult(w, p, minted))
    ensures Next(OpenResult(w, p, minted), Advance(p, minted)) == OpenResult(w, p, minted)
  {
    ResultStays(w, p, minted);
    match w.file
    case Valid(_) => OpensValid(w, p, minted);
    case Corrupt(_) => OpensCorrupt(w, p, minted);
    case Missing => OpensMissing(w, p, minted);
  }

  /** So after any crash a process that may reset, with a token not yet spent, gets alerting going again:
      key file and fingerprint agree with its key, no marker is left, and pending events are coherent. */
  lemma ResetRecovers(acts: seq<Action>, p: Proc, token: Token, minted: Key)
    requires p !in Exec(acts).procs && Exec(acts).lock == None && token !in Exec(acts).consumed && Coherent(Exec(acts))
    ensures var w := Next(Exec(acts), Start(p, true, token));
      var v := OpenResult(w, p, minted);
      && Leads(Alone(p, minted), w, v) && v.procs[p].pc.Open? && v.marker == None && Coherent(v)
      && v.file == Valid(v.procs[p].pc.key) && v.fingerprint == Some(v.procs[p].pc.key)
  {
    var w := Next(Exec(acts), Start(p, true, token));
    OpensAsDecided(w, p, minted);
    RowsAlwaysNeedFingerprint(acts);
  }
}
