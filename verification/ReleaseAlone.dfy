/** A releaser that nobody disturbs and whose every command is answered. */
module ReleaseAlone {
  import opened Options
  import opened ReleaseLock
  import opened Stepping

  /** o runs, nobody else does, and every command is answered; tag is what it is to create. */
  function Alone(o: Oid, tag: Tag): World -> World {
    w => Next(w, Run(o, Reply(true, true), Create(tag)))
  }

  /** One more command takes the releaser from r to s, and the rest of the world from u to v. */
  lemma Go(w: World, o: Oid, tag: Tag, u: World, r: Releaser, v: World, s: Releaser)
    requires Leads(Alone(o, tag), w, Put(u, o, r))
    requires RunStep(Put(u, o, r), o, Reply(true, true), Create(tag)) == Put(v, o, s)
    ensures Leads(Alone(o, tag), w, Put(v, o, s))
  {
    assert Alone(o, tag)(Put(u, o, r)) == Put(v, o, s);
    Hop(Alone(o, tag), w, Put(u, o, r), Put(v, o, s));
  }

  /** Holding the lock, before the local tag is made. */
  function Holding(head: Commit, refs: map<Tag, Object>, pc: Pc): Releaser {
    Releaser(head, pc, true, true, false, None, refs)
  }

  /** Holding the lock, with the tag in the clone. */
  function Tagged(o: Oid, head: Commit, refs: map<Tag, Object>, tag: Tag, pc: Pc): Releaser {
    Releaser(head, pc, true, true, false, Some(tag), refs[tag := Annotated(o, tag, head)])
  }

  /** At the end: published, lock and clone as before. */
  function Finished(head: Commit, refs: map<Tag, Object>, tag: Tag): Releaser {
    Releaser(head, Done(Published(tag), false), false, true, true, Some(tag), refs)
  }

  lemma Acquires(w: World, o: Oid, head: Commit, refs: map<Tag, Object>, tag: Tag)
    requires o !in w.releasers && !MadeBy(refs, o) && w.lock == None
    ensures Leads(Alone(o, tag), Next(w, Begin(o, head, refs)),
      Put(w.(lock := Some(o)), o, Holding(head, refs, ProbeNew(tag))))
  {
    var (start, held) := (Next(w, Begin(o, head, refs)), w.(lock := Some(o)));
    var begun := Releaser(head, Acquire(0), false, false, false, None, refs);
    Here(Alone(o, tag), start);
    assert start == Put(w, o, begun);
    Go(start, o, tag, w, begun, held, Holding(head, refs, ListTags));
    Go(start, o, tag, held, Holding(head, refs, ListTags), held, Holding(head, refs, ProbeNew(tag)));
  }

  lemma Probes(w: World, held: World, o: Oid, head: Commit, refs: map<Tag, Object>, tag: Tag)
    requires tag !in held.tags && tag !in refs
    requires Leads(Alone(o, tag), w, Put(held, o, Holding(head, refs, ProbeNew(tag))))
    ensures Leads(Alone(o, tag), w, Put(held, o, Tagged(o, head, refs, tag, Push(tag, 0))))
  {
    Go(w, o, tag, held, Holding(head, refs, ProbeNew(tag)), held, Holding(head, refs, ProbeLocal(tag)));
    Go(w, o, tag, held, Holding(head, refs, ProbeLocal(tag)), held, Holding(head, refs, CreateLocal(tag)));
    Go(w, o, tag, held, Holding(head, refs, CreateLocal(tag)), held, Tagged(o, head, refs, tag, Push(tag, 0)));
  }

  lemma Pushes(w: World, held: World, o: Oid, head: Commit, refs: map<Tag, Object>, tag: Tag)
    requires tag !in held.tags && Leads(Alone(o, tag), w, Put(held, o, Tagged(o, head, refs, tag, Push(tag, 0))))
    ensures var done := held.(tags := held.tags[tag := Annotated(o, tag, head)]);
      Leads(Alone(o, tag), w, Put(done, o, Tagged(o, head, refs, tag, Announce(tag))))
  {
    var done := held.(tags := held.tags[tag := Annotated(o, tag, head)]);
    Go(w, o, tag, held, Tagged(o, head, refs, tag, Push(tag, 0)), done, Tagged(o, head, refs, tag, ConfirmPush(tag)));
    Go(w, o, tag, done, Tagged(o, head, refs, tag, ConfirmPush(tag)), done, Tagged(o, head, refs, tag, Announce(tag)));
  }

  lemma Reports(w: World, done: World, o: Oid, head: Commit, refs: map<Tag, Object>, tag: Tag)
    requires done.lock == Some(o) && Leads(Alone(o, tag), w, Put(done, o, Tagged(o, head, refs, tag, Announce(tag))))
    ensures Leads(Alone(o, tag), w, Put(done, o, Tagged(o, head, refs, tag, DeleteLock(0, Leaving(Published(tag))))))
  {
    var exit := Leaving(Published(tag));
    Go(w, o, tag, done, Tagged(o, head, refs, tag, Announce(tag)), done,
      Tagged(o, head, refs, tag, ProbeLock(0, exit)));
    Go(w, o, tag, done, Tagged(o, head, refs, tag, ProbeLock(0, exit)), done,
      Tagged(o, head, refs, tag, DeleteLock(0, exit)));
  }

  /** Its own delete has taken effect. */
  function Freed(o: Oid, head: Commit, refs: map<Tag, Object>, tag: Tag, held: bool, pc: Pc): Releaser {
    Tagged(o, head, refs, tag, pc).(deleted := true, held := held)
  }

  lemma Deletes(w: World, done: World, o: Oid, head: Commit, refs: map<Tag, Object>, tag: Tag)
    requires done.lock == Some(o)
    requires Leads(Alone(o, tag), w, Put(done, o, Tagged(o, head, refs, tag, DeleteLock(0, Leaving(Published(tag))))))
    ensures Leads(Alone(o, tag), w,
      Put(done.(lock := None), o, Freed(o, head, refs, tag, false, DropLocal(Published(tag), false))))
  {
    var exit := Leaving(Published(tag));
    var (free, gone) := (done.(lock := None), Freed(o, head, refs, tag, true, ConfirmDelete(0, exit)));
    Go(w, o, tag, done, Tagged(o, head, refs, tag, DeleteLock(0, exit)), free, gone);
    Go(w, o, tag, free, gone, free, Freed(o, head, refs, tag, false, DropLocal(Published(tag), false)));
  }

  lemma Finishes(w: World, free: World, o: Oid, head: Commit, refs: map<Tag, Object>, tag: Tag)
    requires tag !in refs
    requires Leads(Alone(o, tag), w, Put(free, o, Freed(o, head, refs, tag, false, DropLocal(Published(tag), false))))
    ensures Leads(Alone(o, tag), w, Put(free, o, Finished(head, refs, tag)))
  {
    var left := Freed(o, head, refs, tag, false, DropLocal(Published(tag), false));
    assert left.refs - {tag} == refs;
    Go(w, o, tag, free, left, free, Finished(head, refs, tag));
  }

  /** Left alone, with the lock free and a tag that neither remote nor clone has, a releaser publishes
      it: one new tag object at its commit on the remote, and lock and clone as they were. */
  lemma UndisturbedPublish(w: World, o: Oid, head: Commit, refs: map<Tag, Object>, tag: Tag)
    requires o !in w.releasers && !MadeBy(refs, o) && w.lock == None && tag !in w.tags && tag !in refs
    ensures var remote := w.(tags := w.tags[tag := Annotated(o, tag, head)]);
      Leads(Alone(o, tag), Next(w, Begin(o, head, refs)), Put(remote, o, Finished(head, refs, tag)))
  {
    var (start, held) := (Next(w, Begin(o, head, refs)), w.(lock := Some(o)));
    var done := held.(tags := held.tags[tag := Annotated(o, tag, head)]);
    Acquires(w, o, head, refs, tag);
    Probes(start, held, o, head, refs, tag);
    Pushes(start, held, o, head, refs, tag);
    Reports(start, done, o, head, refs, tag);
    Deletes(start, done, o, head, refs, tag);
    Finishes(start, done.(lock := None), o, head, refs, tag);
    assert done.(lock := None) == w.(tags := w.tags[tag := Annotated(o, tag, head)]);
  }

  // ---- Lost answers ----

  function Step(w: World, o: Oid, reply: Reply): World {
    Next(w, Run(o, reply, NoVersion))
  }

  /** A command that never reached the remote, then a read that got no answer. */
  function LostRound(w: World, o: Oid): World {
    Step(Step(w, o, Reply(false, false)), o, Reply(false, false))
  }

  /** Taking the free lock survives two rounds of lost commands, and a push that arrived although its answer
      did not; a third lost round makes the releaser give up and clean up. */
  lemma AcquireRetries(w: World, o: Oid)
    requires o in w.releasers && w.releasers[o].pc == Acquire(0) && w.lock == None
    ensures var v := Step(LostRound(LostRound(w, o), o), o, Reply(true, true));
      v.releasers[o].pc == ListTags && v.lock == Some(o)
    ensures var v := Step(Step(w, o, Reply(false, true)), o, Reply(true, true));
      v.releasers[o].pc == ListTags && v.lock == Some(o)
    ensures LostRound(LostRound(LostRound(w, o), o), o).releasers[o].pc == ProbeLock(0, Abandoning)
  {
  }

  /** So does giving the lock back: two unanswered reads, or a delete that arrived without an answer, do not keep
      it from ending without the lock; a third unanswered read does, and is reported. */
  lemma ReleaseRetries(w: World, o: Oid, exit: Exit)
    requires o in w.releasers && w.releasers[o].pc == ProbeLock(0, exit) && w.releasers[o].held && w.lock == Some(o)
    ensures var two := Step(Step(w, o, Reply(false, false)), o, Reply(false, false));
      && two.releasers[o].pc == ProbeLock(2, exit)
      && Step(two, o, Reply(false, false)).releasers[o].pc == Left(exit, true)
    ensures var deleted := Step(Step(w, o, Reply(true, true)), o, Reply(false, true));
      deleted.lock == None && Step(deleted, o, Reply(true, true)).releasers[o].pc == Left(exit, false)
  {
  }

  /** And publishing the tag: one push that got lost is repeated, one that arrived is recognised, and after two
      lost ones the releaser fails. */
  lemma PushRetries(w: World, o: Oid, tag: Tag)
    requires o in w.releasers && w.releasers[o].pc == Push(tag, 0) && tag !in w.tags
    ensures var again := Step(Step(w, o, Reply(false, false)), o, Reply(true, true));
      && Step(Step(again, o, Reply(true, true)), o, Reply(true, true)).releasers[o].pc == Announce(tag)
      && Step(Step(again, o, Reply(false, false)), o, Reply(true, true)).releasers[o].pc
        == ProbeLock(0, Leaving(Verdict.Failed))
    ensures var v := Step(Step(w, o, Reply(false, true)), o, Reply(true, true));
      v.releasers[o].pc == Announce(tag) && v.tags[tag] == Annotated(o, tag, w.releasers[o].head)
  {
  }
}
