/** The release tool's own loops, each proved to be a run of the ReleaseLock protocol whatever the
    other releasers do between its commands and whichever answers are lost. */
module ReleaseTool {
  import opened Options
  import opened ReleaseLock

  datatype LockProbe = Unreachable | Absent | Found(oid: Oid)

  lemma HeadKept(w: World, o: Oid, reply: Reply, plan: Plan)
    requires o in w.releasers
    ensures o in RunStep(w, o, reply, plan).releasers
    ensures RunStep(w, o, reply, plan).releasers[o].head == w.releasers[o].head
  {
    var pc := w.releasers[o].pc;
    if Releasing(pc) {
      LocalKeptRelease(w, o, reply, plan);
    } else if !pc.CreateLocal? && !pc.DropLocal? {
      if Publishing(pc) { LocalKeptPublish(w, o, reply, plan); } else { LocalKeptRest(w, o, reply, plan); }
    }
  }

  class Tool {
    const own: Oid
    const head: Commit
    /** The remote and the clones, and everything that happened to them. */
    var world: World
    ghost var acts: seq<Action>
    var held: bool

    function Me(): Releaser
      requires own in world.releasers
      reads this
    {
      world.releasers[own]
    }

    ghost predicate Valid() reads this {
      world == Exec(acts) && own in world.releasers && world.releasers[own].head == head
    }

    ghost predicate Pc(pc: Pc) reads this {
      Valid() && Me().pc == pc
    }

    ghost predicate At(pc: Pc) reads this {
      Pc(pc) && Me().held == held
    }

    constructor (own: Oid, head: Commit, refs: map<Tag, Object>, world: World, ghost acts: seq<Action>)
      requires world == Exec(acts) && own !in world.releasers && !MadeBy(refs, own)
      ensures this.own == own && At(Acquire(0))
    {
      var begin := Begin(own, head, refs);
      this.own, this.head, this.held := own, head, false;
      this.world, this.acts := Next(world, begin), acts + [begin];
      new;
      assert (acts + [begin])[..|acts|] == acts;
    }

    /** Anything but a command of this releaser may happen between two of its commands. */
    predicate Foreign(a: Action) {
      match a
      case Begin(_, _, _) => true
      case Kill(o) => o != own
      case Run(o, _, _) => o != own
      case SetTag(_, _) => true
      case Meddle(_, _, _) => true
    }

    method Advance(a: Action)
      requires world == Exec(acts)
      modifies this`world, this`acts
      ensures acts == old(acts) + [a] && world == Next(old(world), a) == Exec(acts)
    {
      assert (acts + [a])[..|acts|] == acts;
      world, acts := Next(world, a), acts + [a];
    }

    method Others()
      requires Valid()
      modifies this`world, this`acts
      ensures Valid() && old(acts) <= acts && Me() == old(Me()).(refs := Me().refs)
    {
      var n: int := *;
      for i := 0 to if n < 0 then 0 else n
        invariant Valid() && old(acts) <= acts && Me() == old(Me()).(refs := Me().refs)
      {
        var a: Action := *;
        if Foreign(a) {
          if a.Run? && a.o in world.releasers { StepFrame(world, a.o, a.reply, a.plan); }
          Advance(a);
        }
      }
    }

    /** One command of this releaser, after whatever the others did. before is what it met. */
    method Command(plan: Plan) returns (reply: Reply, before: World)
      requires Valid()
      modifies this`world, this`acts
      ensures Valid() && old(acts) < acts && own in before.releasers
      ensures before.releasers[own] == old(Me()).(refs := before.releasers[own].refs)
      ensures world == RunStep(before, own, reply, plan)
    {
      Others();
      reply := *;
      before := world;
      StepFrame(world, own, reply, plan);
      HeadKept(world, own, reply, plan);
      Advance(Run(own, reply, plan));
    }

    /** git push --force-with-lease=<lock>: - creates the lock ref or finds it its own. */
    method PushCreate(ghost n: nat) returns (ok: bool)
      requires Pc(Acquire(n)) && held
      modifies this`world, this`acts
      ensures At(if ok then ListTags else Reconcile(n)) && old(acts) <= acts
    {
      var reply, before := Command(NoVersion);
      ok := (before.lock == None || before.lock == Some(own)) && reply.ok;
    }

    method ReadRef() returns (probe: LockProbe, ghost before: World, ghost reply: Reply)
      requires Valid()
      modifies this`world, this`acts
      ensures Valid() && old(acts) < acts && own in before.releasers
      ensures before.releasers[own] == old(Me()).(refs := before.releasers[own].refs)
      ensures world == RunStep(before, own, reply, NoVersion)
      ensures probe == if !reply.ok then Unreachable else if before.lock == None then Absent
        else Found(before.lock.value)
    {
      var answer, met := Command(NoVersion);
      reply, before := answer, met;
      probe := if !answer.ok then Unreachable else if met.lock == None then Absent else Found(met.lock.value);
    }

    /** The fresh read after a create push that reported no success. */
    method ReadRefToAcquire(ghost n: nat) returns (state: LockProbe)
      requires held && At(Reconcile(n))
      modifies this`world, this`acts
      ensures old(acts) <= acts
      ensures match state
        case Unreachable => At(NextAttempt(n, true))
        case Absent => Pc(NextAttempt(n, false)) && !Me().held
        case Found(oid) => if oid == own then At(ListTags) else Pc(Done(Failed, false))
    {
      ghost var before, reply;
      state, before, reply := ReadRef();
    }

    /** One round of acquireLock: it is decided, or the next round must try again. */
    method AcquireRound(n: nat) returns (decided: bool, ok: bool)
      requires Pc(Acquire(n))
      modifies this`world, this`acts, this`held
      ensures old(acts) <= acts
      ensures decided ==> if ok then At(ListTags) else Pc(Done(Failed, false))
      ensures !decided ==> At(NextAttempt(n, held))
    {
      held := true;
      ok := PushCreate(n);
      if ok { return true, true; }
      var state := ReadRefToAcquire(n);
      match state {
        case Found(oid) => return true, oid == own;
        case Absent => held := false;
        case Unreachable =>
      }
      decided := false;
    }

    /** The early return of a releaser without a lock to give back. */
    method NothingHeld(ghost exit: Exit)
      requires At(ProbeLock(0, exit)) && !held
      modifies this`world, this`acts
      ensures At(Left(exit, false)) && old(acts) <= acts
    {
      var _, _ := Command(NoVersion);
    }

    /** git push --force-with-lease=<lock>:<own> with an empty source: deletes the lock ref if it is its own. */
    method PushDelete(ghost n: nat, ghost exit: Exit) returns (ok: bool)
      requires At(DeleteLock(n, exit))
      modifies this`world, this`acts
      ensures At(if ok then ConfirmDelete(n, exit) else NextRelease(n, exit)) && old(acts) <= acts
    {
      var reply, before := Command(NoVersion);
      ok := before.lock == Some(own) && reply.ok;
    }

    method ReadRefToRelease(ghost n: nat, ghost exit: Exit) returns (state: LockProbe)
      requires held && At(ProbeLock(n, exit))
      modifies this`world, this`acts
      ensures old(acts) <= acts
      ensures At(if state == Unreachable then NextRelease(n, exit) else if state == Found(own)
        then DeleteLock(n, exit) else Left(exit, false))
    {
      ghost var before, reply;
      state, before, reply := ReadRef();
    }

    /** The re-read after a delete; the caller clears held when the ref is no longer its own. */
    method ReadRefToConfirm(ghost n: nat, ghost exit: Exit) returns (state: LockProbe)
      requires held && At(ConfirmDelete(n, exit))
      modifies this`world, this`acts
      ensures old(acts) <= acts
      ensures if state == Unreachable
        || state == Found(own) then At(NextRelease(n, exit)) else Pc(Left(exit, false)) && !Me().held
    {
      ghost var before, reply;
      state, before, reply := ReadRef();
    }

    method ConfirmRound(i: nat, ghost exit: Exit) returns (gone: bool)
      requires held && At(ConfirmDelete(i, exit))
      modifies this`world, this`acts, this`held
      ensures old(acts) <= acts && At(if gone then Left(exit, false) else NextRelease(i, exit)) && (!gone ==> held)
    {
      var state := ReadRefToConfirm(i, exit);
      if state == Unreachable || state == Found(own) { return false; }
      held := false;
      return true;
    }

    /** One round of releaseLock: the lock is gone, or the next round must try again. */
    method ReleaseRound(i: nat, ghost exit: Exit) returns (gone: bool)
      requires held && At(ProbeLock(i, exit))
      modifies this`world, this`acts, this`held
      ensures old(acts) <= acts && At(if gone then Left(exit, false) else NextRelease(i, exit)) && (!gone ==> held)
    {
      var state := ReadRefToRelease(i, exit);
      if state == Unreachable { return false; }
      if state != Found(own) { return true; }
      var ok := PushDelete(i, exit);
      if !ok { return false; }
      gone := ConfirmRound(i, exit);
    }

    /** releaseLock, from either caller. */
    method ReleaseLock(ghost exit: Exit) returns (err: bool)
      requires At(ProbeLock(0, exit))
      modifies this`world, this`acts, this`held
      ensures At(Left(exit, err)) && old(acts) <= acts
    {
      if !held {
        NothingHeld(exit);
        return false;
      }
      for i := 0 to ATTEMPTS
        invariant old(acts) <= acts && held
        invariant At(if i < ATTEMPTS then ProbeLock(i, exit) else Left(exit, true))
      {
        var gone := ReleaseRound(i, exit);
        if gone { return false; }
      }
      err := true;
    }

    /** acquireLock: success is the protocol's entry into publish, failure its end. */
    method AcquireLock() returns (ok: bool, cleanupErr: bool)
      requires At(Acquire(0))
      modifies this`world, this`acts, this`held
      ensures Valid() && old(acts) <= acts
      ensures ok ==> At(ListTags) && !cleanupErr
      ensures !ok ==> Pc(Done(Failed, cleanupErr))
    {
      for attempt := 0 to ATTEMPTS
        invariant old(acts) <= acts
        invariant if attempt < ATTEMPTS then Pc(Acquire(attempt))
          else At(if held then ProbeLock(0, Abandoning) else Done(Failed, false))
      {
        var decided;
        decided, ok := AcquireRound(attempt);
        if decided { return ok, false; }
      }
      cleanupErr := false;
      if held { cleanupErr := ReleaseLock(Abandoning); }
      ok := false;
    }

    /** A command whose only use is the tag ref it reads: absent, some object, or no answer. */
    method ReadTag(tag: Tag, plan: Plan)
        returns (ok: bool, target: Option<Object>, ghost before: World, ghost reply: Reply)
      requires Valid()
      modifies this`world, this`acts
      ensures Valid() && old(acts) <= acts && own in before.releasers
      ensures before.releasers[own] == old(Me()).(refs := before.releasers[own].refs)
      ensures world == RunStep(before, own, reply, plan) && ok == reply.ok
      ensures target == if tag in before.tags then Some(before.tags[tag]) else None
    {
      var answer, met := Command(plan);
      ok, reply, before := answer.ok, answer, met;
      target := if tag in met.tags then Some(met.tags[tag]) else None;
    }

    /** Lists the tags and allocates a version from them. */
    method ChooseTag() returns (plan: Plan)
      requires At(ListTags)
      modifies this`world, this`acts
      ensures old(acts) <= acts
      ensures match plan
        case NoVersion => At(Leave(Failed))
        case Reuse(tag) => At(ProbeReused(tag))
        case Create(tag) => At(ProbeNew(tag))
    {
      plan := *;
      var reply, before := Command(plan);
      if !reply.ok { plan := NoVersion; }
    }

    method ConfirmReused(tag: Tag) returns (ok: bool)
      requires At(ProbeReused(tag))
      modifies this`world, this`acts
      ensures At(if ok then Announce(tag) else Leave(Failed)) && old(acts) <= acts
    {
      ghost var before, reply;
      var answered, target;
      answered, target, before, reply := ReadTag(tag, NoVersion);
      ok := answered && target.Some? && target.value.commit == head;
    }

    method ProbeFree(tag: Tag) returns (free: bool)
      requires At(ProbeNew(tag))
      modifies this`world, this`acts
      ensures At(if free then ProbeLocal(tag) else Leave(Failed)) && old(acts) <= acts
    {
      ghost var before, reply;
      var answered, target;
      answered, target, before, reply := ReadTag(tag, NoVersion);
      free := answered && target == None;
    }

    method ProbeLocalFree(tag: Tag) returns (free: bool)
      requires At(ProbeLocal(tag))
      modifies this`world, this`acts
      ensures At(if free then CreateLocal(tag) else Leave(Failed)) && old(acts) <= acts
    {
      var probe, met := Command(NoVersion);
      free := probe.ok && tag !in met.releasers[own].refs;
    }

    /** Both the remote and the clone must not have the tag yet; then the clone gets it. */
    method CreateLocalTag(tag: Tag) returns (ok: bool)
      requires At(ProbeNew(tag))
      modifies this`world, this`acts
      ensures At(if ok then Push(tag, 0) else Leave(Failed)) && old(acts) <= acts
    {
      ok := ProbeFree(tag);
      if !ok { return; }
      ok := ProbeLocalFree(tag);
      if !ok { return; }
      var reply, met := Command(NoVersion);
      ok := tag !in met.releasers[own].refs && reply.ok;
    }

    method PushLocalTag(tag: Tag, ghost n: nat) returns (ok: bool)
      requires At(Push(tag, n))
      modifies this`world, this`acts
      ensures At(if ok then ConfirmPush(tag) else ReconcilePush(tag, n)) && old(acts) <= acts
    {
      var reply, before := Command(NoVersion);
      ok := (tag !in before.tags || before.tags[tag] == Annotated(own, tag, head)) && reply.ok;
    }

    method ConfirmPushed(tag: Tag) returns (ok: bool)
      requires At(ConfirmPush(tag))
      modifies this`world, this`acts
      ensures At(if ok then Announce(tag) else Leave(Failed)) && old(acts) <= acts
    {
      ghost var before, reply;
      var answered, target;
      answered, target, before, reply := ReadTag(tag, NoVersion);
      ok := answered && target == Some(Annotated(own, tag, head));
    }

    method ProbePushed(tag: Tag, ghost n: nat) returns (answered: bool, target: Option<Object>)
      requires At(ReconcilePush(tag, n))
      modifies this`world, this`acts
      ensures old(acts) <= acts
      ensures At(
        if answered && target == Some(Annotated(own, tag, head)) then Announce(tag)
        else if answered && target == None && n + 1 < PUSH_ATTEMPTS then Push(tag, n + 1)
        else Leave(Failed))
    {
      ghost var before, reply;
      answered, target, before, reply := ReadTag(tag, NoVersion);
    }

    /** Up to two pushes, each settled by a probe; true when the tag on the remote is the releaser's own. */
    method PushLoop(tag: Tag) returns (ok: bool)
      requires At(Push(tag, 0))
      modifies this`world, this`acts
      ensures At(if ok then Announce(tag) else Leave(Failed)) && old(acts) <= acts
    {
      for attempt := 0 to PUSH_ATTEMPTS
        invariant At(if attempt < PUSH_ATTEMPTS then Push(tag, attempt) else Leave(Failed)) && old(acts) <= acts
      {
        ok := PushLocalTag(tag, attempt);
        if ok {
          ok := ConfirmPushed(tag);
          return;
        }
        var answered, target := ProbePushed(tag, attempt);
        if answered && target == Some(Annotated(own, tag, head)) { return true; }
        if answered && target.Some? { return false; }
        if !answered { return false; }
      }
      ok := false;
    }

    method Report(tag: Tag) returns (verdict: Verdict)
      requires At(Announce(tag))
      modifies this`world, this`acts
      ensures At(Leave(verdict)) && old(acts) <= acts
    {
      var reply, before := Command(NoVersion);
      verdict := if reply.ok then Published(tag) else Failed;
    }

    method PublishReused(tag: Tag) returns (verdict: Verdict)
      requires At(ProbeReused(tag))
      modifies this`world, this`acts
      ensures At(Leave(verdict)) && old(acts) <= acts
    {
      var ok := ConfirmReused(tag);
      if !ok { return Failed; }
      verdict := Report(tag);
    }

    method PublishNew(tag: Tag) returns (verdict: Verdict)
      requires At(ProbeNew(tag))
      modifies this`world, this`acts
      ensures At(Leave(verdict)) && old(acts) <= acts
    {
      var ok := CreateLocalTag(tag);
      if !ok { return Failed; }
      ok := PushLoop(tag);
      if !ok { return Failed; }
      verdict := Report(tag);
    }

    /** The body of publish, between taking the lock and the deferred cleanup. */
    method PublishUnderLock() returns (verdict: Verdict)
      requires At(ListTags)
      modifies this`world, this`acts
      ensures At(Leave(verdict)) && old(acts) <= acts
    {
      var plan := ChooseTag();
      match plan {
        case NoVersion => verdict := Failed;
        case Reuse(tag) => verdict := PublishReused(tag);
        case Create(tag) => verdict := PublishNew(tag);
      }
    }

    method DropLocalTag(verdict: Verdict, stranded: bool) returns (err: bool)
      requires At(DropLocal(verdict, stranded))
      modifies this`world, this`acts
      ensures At(Done(verdict, stranded || err)) && old(acts) <= acts
    {
      var reply, before := Command(NoVersion);
      var r := before.releasers[own];
      err := r.local.Some?
        && !(r.local.value in r.refs && r.refs[r.local.value] == Made(own, r, r.local.value) && reply.ok);
    }

    /** publish: without an error, the tag was seen at the released commit under the lock, and neither
        the lock nor a tag object of its making is left; with one, the protocol ended otherwise. */
    method Publish() returns (err: bool, ghost tag: Tag)
      requires At(Acquire(0))
      modifies this`world, this`acts, this`held
      ensures Valid() && old(acts) <= acts && Me().pc.Done?
      ensures !err <==> Me().pc.verdict.Published? && !Me().pc.stranded
      ensures !err ==> Me().pc.verdict == Published(tag) && WasSeen(acts, own, Me(), tag) && !MadeBy(Me().refs, own)
      ensures !Me().pc.stranded ==> world.lock != Some(own)
    {
      tag := "";
      var ok, cleanupErr := AcquireLock();
      if ok {
        var verdict := PublishUnderLock();
        var stranded := ReleaseLock(Leaving(verdict));
        var dropErr := DropLocalTag(verdict, stranded);
        err := verdict.Failed? || stranded || dropErr;
        tag := if verdict.Published? then verdict.tag else "";
      } else {
        err := true;
      }
      if !err { PublishedIsComplete(acts, own, tag); }
      InvAlways(acts);
    }
  }
}
