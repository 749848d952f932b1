/** The release tool: a lock ref on the remote used as a compare-and-swap register, and the
    publication of a tag under it, by any number of releasers with distinct lock objects. Every
    remote or local Git command is one step. Its answer may be lost; its effect, if any, is not late. */
module ReleaseLock {
  import opened Options
  /** A releaser is named by its lock object. */
  type Oid = nat
  type Commit = nat
  type Tag = string

  /** What a tag ref points to: a tag object, or a commit directly. */
  datatype Object = Annotated(maker: Oid, name: Tag, commit: Commit) | Lightweight(commit: Commit)

  const ATTEMPTS := 3
  const PUSH_ATTEMPTS := 2

  datatype Verdict = Published(tag: Tag) | Failed

  /** Whether the releaser was inside publish, or still acquiring, when it began to give the lock up. */
  datatype Exit = Leaving(verdict: Verdict) | Abandoning

  datatype Pc =
    | Acquire(attempt: nat)
    | Reconcile(attempt: nat)
    | ListTags
    | ProbeReused(tag: Tag)
    | ProbeNew(tag: Tag)
    | ProbeLocal(tag: Tag)
    | CreateLocal(tag: Tag)
    | Push(tag: Tag, attempt: nat)
    | ConfirmPush(tag: Tag)
    | ReconcilePush(tag: Tag, attempt: nat)
    | Announce(tag: Tag)
    | ProbeLock(attempt: nat, exit: Exit)
    | DeleteLock(attempt: nat, exit: Exit)
    | ConfirmDelete(attempt: nat, exit: Exit)
    | DropLocal(verdict: Verdict, stranded: bool)
    | Done(verdict: Verdict, stranded: bool)
    | Killed

  /** held is the tool's own flag. acquired and deleted record that its acquisition succeeded and that
      a delete of its own took effect. refs are the tags of its clone, local the one it made there. */
  datatype Releaser = Releaser(
    head: Commit, pc: Pc, held: bool, acquired: bool, deleted: bool, local: Option<Tag>, refs: map<Tag, Object>)

  datatype World = World(lock: Option<Oid>, tags: map<Tag, Object>, releasers: map<Oid, Releaser>)

  const EMPTY := World(None, map[], map[])

  /** ok: the command's success is reported. landed: an effect that was possible took place. */
  datatype Reply = Reply(ok: bool, landed: bool)

  /** What version allocation decided from the listed tags. */
  datatype Plan = NoVersion | Reuse(tag: Tag) | Create(tag: Tag)

  /** SetTag is any change of a remote tag by others. Meddle is one in the releaser's clone. */
  datatype Action =
    | Begin(o: Oid, head: Commit, refs: map<Tag, Object>)
    | Kill(o: Oid)
    | Run(o: Oid, reply: Reply, plan: Plan)
    | SetTag(tag: Tag, target: Option<Object>)
    | Meddle(o: Oid, tag: Tag, target: Option<Object>)

  function Set(m: map<Tag, Object>, tag: Tag, target: Option<Object>): map<Tag, Object> {
    if target.Some? then m[tag := target.value] else m - {tag}
  }

  predicate MadeBy(refs: map<Tag, Object>, o: Oid) {
    exists tag | tag in refs :: refs[tag].Annotated? && refs[tag].maker == o
  }

  function Made(o: Oid, r: Releaser, tag: Tag): Object {
    Annotated(o, tag, r.head)
  }

  function Goto(w: World, o: Oid, pc: Pc): World
    requires o in w.releasers
  {
    w.(releasers := w.releasers[o := w.releasers[o].(pc := pc)])
  }

  function Put(w: World, o: Oid, r: Releaser): World {
    w.(releasers := w.releasers[o := r])
  }

  /** The loop of acquireLock goes round or ends; it ends by releasing what it may hold. */
  function NextAttempt(attempt: nat, held: bool): Pc {
    if attempt + 1 < ATTEMPTS then Acquire(attempt + 1)
    else if held then ProbeLock(0, Abandoning)
    else Done(Failed, false)
  }

  /** releaseLock has ended, with or without an error. */
  function Left(exit: Exit, stranded: bool): Pc {
    match exit
    case Leaving(verdict) => DropLocal(verdict, stranded)
    case Abandoning => Done(Failed, stranded)
  }

  function NextRelease(attempt: nat, exit: Exit): Pc {
    if attempt + 1 < ATTEMPTS then ProbeLock(attempt + 1, exit) else Left(exit, true)
  }

  /** The create-only push: lands on an absent ref, is up to date on its own, is refused otherwise. */
  function CreatePush(w: World, o: Oid, attempt: nat, reply: Reply): World
    requires o in w.releasers
  {
    var free := w.lock == None || w.lock == Some(o);
    var v := if free && (reply.ok || reply.landed) then w.(lock := Some(o)) else w;
    var r := w.releasers[o].(held := true);
    Put(v, o, if free && reply.ok then r.(pc := ListTags, acquired := true) else r.(pc := Reconcile(attempt)))
  }

  function ReconcileAcquire(w: World, o: Oid, attempt: nat, reply: Reply): World
    requires o in w.releasers
  {
    var r := w.releasers[o];
    Put(w, o,
      if !reply.ok then r.(pc := NextAttempt(attempt, r.held))
      else if w.lock == Some(o) then r.(pc := ListTags, held := true, acquired := true)
      else if w.lock.Some? then r.(pc := Done(Failed, false))
      else r.(pc := NextAttempt(attempt, false), held := false))
  }

  function ReadLock(w: World, o: Oid, attempt: nat, exit: Exit, reply: Reply): World
    requires o in w.releasers
  {
    Goto(w, o,
      if !w.releasers[o].held then Left(exit, false)
      else if !reply.ok then NextRelease(attempt, exit)
      else if w.lock == Some(o) then DeleteLock(attempt, exit)
      else Left(exit, false))
  }

  /** The delete push names the releaser's own object as the value it expects. */
  function DeletePush(w: World, o: Oid, attempt: nat, exit: Exit, reply: Reply): World
    requires o in w.releasers
  {
    var own := w.lock == Some(o);
    var v := if own && (reply.ok || reply.landed) then w.(lock := None) else w;
    var r := w.releasers[o].(deleted := w.releasers[o].deleted || v.lock != w.lock);
    Put(v, o, r.(pc := if own && reply.ok then ConfirmDelete(attempt, exit) else NextRelease(attempt, exit)))
  }

  function ConfirmGone(w: World, o: Oid, attempt: nat, exit: Exit, reply: Reply): World
    requires o in w.releasers
  {
    var r := w.releasers[o];
    Put(w, o,
      if !reply.ok || w.lock == Some(o) then r.(pc := NextRelease(attempt, exit))
      else r.(pc := Left(exit, false), held := false))
  }

  function PushTag(w: World, o: Oid, tag: Tag, attempt: nat, reply: Reply): World
    requires o in w.releasers
  {
    var made := Made(o, w.releasers[o], tag);
    var free := tag !in w.tags || w.tags[tag] == made;
    var v := if free && (reply.ok || reply.landed) then w.(tags := w.tags[tag := made]) else w;
    Goto(v, o, if free && reply.ok then ConfirmPush(tag) else ReconcilePush(tag, attempt))
  }

  function Leave(verdict: Verdict): Pc {
    ProbeLock(0, Leaving(verdict))
  }

  /** A probe after a push: only the releaser's own object at the tag counts as published. */
  function AfterProbe(w: World, o: Oid, tag: Tag, again: Pc, reply: Reply): Pc
    requires o in w.releasers
  {
    if !reply.ok then Leave(Failed)
    else if tag !in w.tags then again
    else if w.tags[tag] == Made(o, w.releasers[o], tag) then Announce(tag)
    else Leave(Failed)
  }

  function MakeLocal(w: World, o: Oid, tag: Tag, reply: Reply): World
    requires o in w.releasers
  {
    var r := w.releasers[o];
    var free := tag !in r.refs;
    var s := if free && (reply.ok || reply.landed) then r.(refs := r.refs[tag := Made(o, r, tag)]) else r;
    Put(w, o, if free && reply.ok then s.(local := Some(tag), pc := Push(tag, 0)) else s.(pc := Leave(Failed)))
  }

  /** The deferred removal of the local tag, bound to the object that was installed. */
  function RemoveLocal(w: World, o: Oid, verdict: Verdict, stranded: bool, reply: Reply): World
    requires o in w.releasers
  {
    var r := w.releasers[o];
    if r.local == None then Goto(w, o, Done(verdict, stranded))
    else
      var tag := r.local.value;
      var own := tag in r.refs && r.refs[tag] == Made(o, r, tag);
      var s := if own && (reply.ok || reply.landed) then r.(refs := r.refs - {tag}) else r;
      Put(w, o, s.(pc := Done(verdict, stranded || !(own && reply.ok))))
  }

  function RunStep(w: World, o: Oid, reply: Reply, plan: Plan): World
    requires o in w.releasers
  {
    var r := w.releasers[o];
    match r.pc
    case Acquire(n) => CreatePush(w, o, n, reply)
    case Reconcile(n) => ReconcileAcquire(w, o, n, reply)
    case ListTags =>
      Goto(w, o, if !reply.ok then Leave(Failed) else match plan
        case NoVersion => Leave(Failed)
        case Reuse(tag) => ProbeReused(tag)
        case Create(tag) => ProbeNew(tag))
    case ProbeReused(tag) =>
      Goto(w, o, if reply.ok && tag in w.tags && w.tags[tag].commit == r.head then Announce(tag) else Leave(Failed))
    case ProbeNew(tag) => Goto(w, o, if reply.ok && tag !in w.tags then ProbeLocal(tag) else Leave(Failed))
    case ProbeLocal(tag) => Goto(w, o, if reply.ok && tag !in r.refs then CreateLocal(tag) else Leave(Failed))
    case CreateLocal(tag) => MakeLocal(w, o, tag, reply)
    case Push(tag, n) => PushTag(w, o, tag, n, reply)
    case ConfirmPush(tag) => Goto(w, o, AfterProbe(w, o, tag, Leave(Failed), reply))
    case ReconcilePush(tag, n) =>
      Goto(w, o, AfterProbe(w, o, tag, if n + 1 < PUSH_ATTEMPTS then Push(tag, n + 1) else Leave(Failed), reply))
    case Announce(tag) => Goto(w, o, Leave(if reply.ok then Published(tag) else Failed))
    case ProbeLock(n, exit) => ReadLock(w, o, n, exit, reply)
    case DeleteLock(n, exit) => DeletePush(w, o, n, exit, reply)
    case ConfirmDelete(n, exit) => ConfirmGone(w, o, n, exit, reply)
    case DropLocal(verdict, stranded) => RemoveLocal(w, o, verdict, stranded, reply)
    case _ => w
  }

  function Next(w: World, a: Action): World {
    match a
    case Begin(o, head, refs) =>
      if o in w.releasers
        || MadeBy(refs, o) then w else Put(w, o, Releaser(head, Acquire(0), false, false, false, None, refs))
    case Kill(o) => if o in w.releasers && !w.releasers[o].pc.Done? then Goto(w, o, Killed) else w
    case Run(o, reply, plan) => if o in w.releasers then RunStep(w, o, reply, plan) else w
    case SetTag(tag, target) => w.(tags := Set(w.tags, tag, target))
    case Meddle(o, tag, target) =>
      if o in w.releasers && (target.Some? && target.value.Annotated? ==> target.value.maker != o)
      then Put(w, o, w.releasers[o].(refs := Set(w.releasers[o].refs, tag, target))) else w
  }

  function Exec(acts: seq<Action>): World {
    if acts == [] then EMPTY else Next(Exec(acts[..|acts| - 1]), acts[|acts| - 1])
  }

  /** Between a successful acquisition and its own delete. */
  predicate Inside(w: World, o: Oid) {
    o in w.releasers && w.releasers[o].acquired && !w.releasers[o].deleted
  }

  predicate Pushing(pc: Pc) {
    pc.Push? || pc.ConfirmPush? || pc.ReconcilePush? || pc.Announce?
  }

  /** Listing, tagging and pushing. */
  predicate Publishing(pc: Pc) {
    pc.ListTags? || pc.ProbeReused? || pc.ProbeNew? || pc.ProbeLocal? || pc.CreateLocal? || Pushing(pc)
  }

  predicate Releasing(pc: Pc) {
    pc.ProbeLock? || pc.DeleteLock? || pc.ConfirmDelete?
  }

  /** What a releaser's place in the protocol says about the remote lock. */
  predicate Fits(lock: Option<Oid>, o: Oid, r: Releaser) {
    && (r.acquired && !r.deleted ==> lock == Some(o))
    && (r.deleted ==> lock != Some(o))
    && (Publishing(r.pc) ==> r.acquired && !r.deleted && r.held)
    && (Releasing(r.pc) ==> r.held && (r.pc.exit.Leaving? ==> r.acquired))
    && (r.pc.Acquire? || r.pc.Reconcile? ==> !r.deleted && !r.acquired)
    && (r.pc.Reconcile? ==> r.held)
    && (r.pc.ConfirmDelete? ==> r.deleted)
    && (r.pc.DropLocal? ==> r.acquired && (!r.pc.stranded ==> r.deleted))
    && (r.pc.Done? && !r.pc.stranded ==> lock != Some(o))
    && (r.pc.Done? && r.pc.verdict.Published? ==> r.acquired && (!r.pc.stranded ==> r.deleted))
  }

  ghost predicate Inv(w: World) {
    && (w.lock.Some? ==> w.lock.value in w.releasers)
    && forall o | o in w.releasers :: Fits(w.lock, o, w.releasers[o])
  }

  lemma PublishStepFits(w: World, o: Oid, reply: Reply, plan: Plan)
    requires o in w.releasers && Publishing(w.releasers[o].pc) && Fits(w.lock, o, w.releasers[o])
    ensures var v := RunStep(w, o, reply, plan); o in v.releasers && v.lock == w.lock && Fits(v.lock, o, v.releasers[o])
  {
  }

  lemma AcquireStepFits(w: World, o: Oid, reply: Reply, plan: Plan)
    requires o in w.releasers && Fits(w.lock, o, w.releasers[o])
    requires w.releasers[o].pc.Acquire? || w.releasers[o].pc.Reconcile?
    ensures var v := RunStep(w, o, reply, plan); o in v.releasers && Fits(v.lock, o, v.releasers[o])
  {
  }

  lemma DeleteStepFits(w: World, o: Oid, reply: Reply, plan: Plan)
    requires o in w.releasers && w.releasers[o].pc.DeleteLock? && Fits(w.lock, o, w.releasers[o])
    ensures var v := RunStep(w, o, reply, plan); o in v.releasers && Fits(v.lock, o, v.releasers[o])
  {
  }

  lemma ProbeStepFits(w: World, o: Oid, reply: Reply, plan: Plan)
    requires o in w.releasers && Fits(w.lock, o, w.releasers[o])
    requires w.releasers[o].pc.ProbeLock? || w.releasers[o].pc.ConfirmDelete?
    ensures var v := RunStep(w, o, reply, plan); o in v.releasers && Fits(v.lock, o, v.releasers[o])
  {
  }

  lemma RunStepFits(w: World, o: Oid, reply: Reply, plan: Plan)
    requires o in w.releasers && Fits(w.lock, o, w.releasers[o])
    ensures var v := RunStep(w, o, reply, plan); o in v.releasers && Fits(v.lock, o, v.releasers[o])
  {
    var pc := w.releasers[o].pc;
    if Publishing(pc) {
      PublishStepFits(w, o, reply, plan);
    } else if pc.Acquire? || pc.Reconcile? {
      AcquireStepFits(w, o, reply, plan);
    } else if pc.DeleteLock? {
      DeleteStepFits(w, o, reply, plan);
    } else if Releasing(pc) {
      ProbeStepFits(w, o, reply, plan);
    }
  }

  ghost predicate OnlyOwn(w: World, v: World, o: Oid) {
    v.releasers.Keys == w.releasers.Keys && forall x | x in w.releasers && x != o :: v.releasers[x] == w.releasers[x]
  }

  lemma OwnStepPublish(w: World, o: Oid, reply: Reply, plan: Plan)
    requires o in w.releasers && Publishing(w.releasers[o].pc)
    ensures OnlyOwn(w, RunStep(w, o, reply, plan), o)
  {
  }

  lemma OwnStepRelease(w: World, o: Oid, reply: Reply, plan: Plan)
    requires o in w.releasers && Releasing(w.releasers[o].pc)
    ensures OnlyOwn(w, RunStep(w, o, reply, plan), o)
  {
  }

  lemma OwnStepRest(w: World, o: Oid, reply: Reply, plan: Plan)
    requires o in w.releasers && !Publishing(w.releasers[o].pc) && !Releasing(w.releasers[o].pc)
    ensures OnlyOwn(w, RunStep(w, o, reply, plan), o)
  {
  }

  lemma OwnLock(w: World, o: Oid, reply: Reply, plan: Plan)
    requires o in w.releasers
    ensures var v := RunStep(w, o, reply, plan);
      v.lock != w.lock ==> (w.lock == None && v.lock == Some(o)) || (w.lock == Some(o) && v.lock == None)
  {
  }

  /** A step touches only its own releaser, and the lock only from free to its own or from its own to free. */
  lemma StepFrame(w: World, o: Oid, reply: Reply, plan: Plan)
    requires o in w.releasers
    ensures var v := RunStep(w, o, reply, plan);
      && v.releasers.Keys == w.releasers.Keys
      && (forall x | x in w.releasers && x != o :: v.releasers[x] == w.releasers[x])
      && (v.lock != w.lock ==> (w.lock == None && v.lock == Some(o)) || (w.lock == Some(o) && v.lock == None))
  {
    if Publishing(w.releasers[o].pc) {
      OwnStepPublish(w, o, reply, plan);
    } else if Releasing(w.releasers[o].pc) {
      OwnStepRelease(w, o, reply, plan);
    } else {
      OwnStepRest(w, o, reply, plan);
    }
    OwnLock(w, o, reply, plan);
  }

  lemma InvStep(w: World, a: Action)
    requires Inv(w)
    ensures Inv(Next(w, a))
  {
    if a.Run? && a.o in w.releasers {
      StepFrame(w, a.o, a.reply, a.plan);
      RunStepFits(w, a.o, a.reply, a.plan);
    }
  }

  lemma {:induction false} InvAlways(acts: seq<Action>)
    ensures Inv(Exec(acts))
  {
    if acts != [] {
      InvAlways(acts[..|acts| - 1]);
      InvStep(Exec(acts[..|acts| - 1]), acts[|acts| - 1]);
    }
  }

  /** No two releasers are between a successful acquisition and their own delete at once. */
  lemma MutualExclusion(acts: seq<Action>, o: Oid, p: Oid)
    requires Inside(Exec(acts), o) && Inside(Exec(acts), p)
    ensures o == p && Exec(acts).lock == Some(o)
  {
    InvAlways(acts);
  }

  /** Allocation, tagging and pushing happen only while the remote lock is the releaser's own. */
  lemma PublishingIsExclusive(acts: seq<Action>, o: Oid)
    requires o in Exec(acts).releasers && Publishing(Exec(acts).releasers[o].pc)
    ensures Inside(Exec(acts), o) && Exec(acts).lock == Some(o)
    ensures forall p | p in Exec(acts).releasers && Publishing(Exec(acts).releasers[p].pc) :: p == o
  {
    InvAlways(acts);
  }

  /** A step that takes a lock off the remote is a delete push of the releaser that created it. */
  lemma LockStep(w: World, a: Action)
    requires w.lock.Some? && Next(w, a).lock != w.lock
    ensures a.Run? && w.lock == Some(a.o) && Next(w, a).lock == None
    ensures a.o in w.releasers && w.releasers[a.o].pc.DeleteLock?
  {
  }

  /** The releaser's own delete push took effect at n, and its lock was on the remote from i until then. */
  ghost predicate OwnDelete(acts: seq<Action>, i: nat, n: nat, o: Oid) {
    && i <= n < |acts| && acts[n].Run? && acts[n].o == o
    && (forall k | i <= k <= n :: Exec(acts[..k]).lock == Some(o))
    && Exec(acts[..n + 1]).lock == None && o in Exec(acts[..n]).releasers && Exec(acts[..n]).releasers[o].pc.DeleteLock?
  }

  lemma LockStepOf(acts: seq<Action>, i: nat)
    requires i < |acts|
    ensures Exec(acts[..i + 1]) == Next(Exec(acts[..i]), acts[i])
    ensures Exec(acts[..i]).lock.Some? && Exec(acts[..i + 1]).lock != Exec(acts[..i]).lock ==>
      acts[i].Run? && Exec(acts[..i]).lock == Some(acts[i].o) && Exec(acts[..i + 1]).lock == None
      && acts[i].o in Exec(acts[..i]).releasers && Exec(acts[..i]).releasers[acts[i].o].pc.DeleteLock?
  {
    assert acts[..i + 1][..i] == acts[..i];
    if Exec(acts[..i]).lock.Some?
      && Next(Exec(acts[..i]), acts[i]).lock != Exec(acts[..i]).lock { LockStep(Exec(acts[..i]), acts[i]); }
  }

  /** Nobody deletes or replaces another's lock: if o's lock was on the remote at some point of a run and
      is not at a later one, its own delete push took effect in between, and nothing else did before. */
  lemma {:induction false} NoForeignDelete(acts: seq<Action>, i: nat, j: nat, o: Oid) returns (n: nat)
    requires i <= j <= |acts| && Exec(acts[..i]).lock == Some(o) && Exec(acts[..j]).lock != Some(o)
    ensures n < j && OwnDelete(acts, i, n, o)
    decreases j - i
  {
    assert acts[..i + 1][..i] == acts[..i];
    LockStepOf(acts, i);
    if Exec(acts[..i + 1]).lock == Some(o) {
      n := NoForeignDelete(acts, i + 1, j, o);
    } else {
      n := i;
    }
  }

  /** A releaser that ends without a cleanup error has left no lock of its own behind, then or later. */
  lemma NoSilentStranding(acts: seq<Action>, o: Oid)
    requires o in Exec(acts).releasers && Exec(acts).releasers[o].pc.Done? && !Exec(acts).releasers[o].pc.stranded
    ensures Exec(acts).lock != Some(o)
  {
    InvAlways(acts);
  }

  // ---- The local tag ----

  function VerdictOf(exit: Exit): Verdict {
    if exit.Leaving? then exit.verdict else Failed
  }

  /** Steps from which the run may still end published. */
  predicate Hopeful(pc: Pc) {
    match pc
    case ProbeLock(_, exit) => VerdictOf(exit).Published?
    case DeleteLock(_, exit) => VerdictOf(exit).Published?
    case ConfirmDelete(_, exit) => VerdictOf(exit).Published?
    case DropLocal(verdict, _) => verdict.Published?
    case Done(_, _) => false
    case Killed => false
    case _ => true
  }

  predicate EarlyPc(pc: Pc) {
    pc.Acquire? || pc.Reconcile? || pc.ListTags? || pc.ProbeReused? || pc.ProbeNew? || pc.ProbeLocal? || pc.CreateLocal?
  }

  /** Tag objects of the releaser in its clone are at the recorded local tag, unless creation failed unseen. */
  predicate LocalFits(o: Oid, r: Releaser) {
    && (Hopeful(r.pc) ==>
      forall tag | tag in r.refs && r.refs[tag].Annotated? && r.refs[tag].maker == o ::
        r.local == Some(tag) && r.refs[tag] == Made(o, r, tag))
    && (EarlyPc(r.pc) ==> r.local == None)
    && (r.pc.Done? && r.pc.verdict.Published? && !r.pc.stranded ==> !MadeBy(r.refs, o))
  }

  /** The clone is untouched, and a run gets no closer to being published or early. */
  predicate LocalKept(r: Releaser, s: Releaser) {
    && s.refs == r.refs && s.local == r.local && s.head == r.head
    && (Hopeful(s.pc) ==> Hopeful(r.pc)) && (EarlyPc(s.pc) ==> EarlyPc(r.pc))
    && (s.pc.Done? && s.pc.verdict.Published? ==> s.pc == r.pc)
  }

  lemma LocalKeptList(w: World, o: Oid, reply: Reply, plan: Plan)
    requires o in w.releasers && Publishing(w.releasers[o].pc) && !Pushing(w.releasers[o].pc)
    requires !w.releasers[o].pc.CreateLocal?
    ensures var v := RunStep(w, o, reply, plan); o in v.releasers && LocalKept(w.releasers[o], v.releasers[o])
  {
  }

  lemma LocalKeptPush(w: World, o: Oid, reply: Reply, plan: Plan)
    requires o in w.releasers && Pushing(w.releasers[o].pc)
    ensures var v := RunStep(w, o, reply, plan); o in v.releasers && LocalKept(w.releasers[o], v.releasers[o])
  {
  }

  lemma LocalKeptPublish(w: World, o: Oid, reply: Reply, plan: Plan)
    requires o in w.releasers && Publishing(w.releasers[o].pc) && !w.releasers[o].pc.CreateLocal?
    requires !w.releasers[o].pc.DropLocal?
    ensures var v := RunStep(w, o, reply, plan); o in v.releasers && LocalKept(w.releasers[o], v.releasers[o])
  {
    var pc := w.releasers[o].pc;
    if Pushing(pc) {
      LocalKeptPush(w, o, reply, plan);
    } else {
      LocalKeptList(w, o, reply, plan);
    }
  }

  lemma LocalKeptProbe(w: World, o: Oid, reply: Reply, plan: Plan)
    requires o in w.releasers && w.releasers[o].pc.ProbeLock?
    ensures var v := RunStep(w, o, reply, plan); o in v.releasers && LocalKept(w.releasers[o], v.releasers[o])
  {
  }

  lemma LocalKeptDelete(w: World, o: Oid, reply: Reply, plan: Plan)
    requires o in w.releasers && w.releasers[o].pc.DeleteLock?
    ensures var v := RunStep(w, o, reply, plan); o in v.releasers && LocalKept(w.releasers[o], v.releasers[o])
  {
  }

  lemma LocalKeptConfirm(w: World, o: Oid, reply: Reply, plan: Plan)
    requires o in w.releasers && w.releasers[o].pc.ConfirmDelete?
    ensures var v := RunStep(w, o, reply, plan); o in v.releasers && LocalKept(w.releasers[o], v.releasers[o])
  {
  }

  lemma LocalKeptRelease(w: World, o: Oid, reply: Reply, plan: Plan)
    requires o in w.releasers && Releasing(w.releasers[o].pc)
    ensures var v := RunStep(w, o, reply, plan); o in v.releasers && LocalKept(w.releasers[o], v.releasers[o])
  {
    var pc := w.releasers[o].pc;
    if pc.ProbeLock? {
      LocalKeptProbe(w, o, reply, plan);
    } else if pc.DeleteLock? {
      LocalKeptDelete(w, o, reply, plan);
    } else {
      LocalKeptConfirm(w, o, reply, plan);
    }
  }

  lemma LocalKeptRest(w: World, o: Oid, reply: Reply, plan: Plan)
    requires o in w.releasers && !Publishing(w.releasers[o].pc) && !Releasing(w.releasers[o].pc)
    requires !w.releasers[o].pc.CreateLocal? && !w.releasers[o].pc.DropLocal?
    ensures var v := RunStep(w, o, reply, plan); o in v.releasers && LocalKept(w.releasers[o], v.releasers[o])
  {
  }

  lemma LocalCreated(w: World, o: Oid, tag: Tag, reply: Reply)
    requires o in w.releasers && w.releasers[o].pc == CreateLocal(tag) && LocalFits(o, w.releasers[o])
    ensures LocalFits(o, MakeLocal(w, o, tag, reply).releasers[o])
  {
  }

  lemma LocalDropped(w: World, o: Oid, verdict: Verdict, stranded: bool, reply: Reply)
    requires o in w.releasers && w.releasers[o].pc == DropLocal(verdict, stranded) && LocalFits(o, w.releasers[o])
    ensures LocalFits(o, RemoveLocal(w, o, verdict, stranded, reply).releasers[o])
  {
  }

  lemma LocalStep(w: World, o: Oid, reply: Reply, plan: Plan)
    requires o in w.releasers && LocalFits(o, w.releasers[o])
    ensures var v := RunStep(w, o, reply, plan); o in v.releasers && LocalFits(o, v.releasers[o])
  {
    var pc := w.releasers[o].pc;
    if pc.CreateLocal? {
      LocalCreated(w, o, pc.tag, reply);
    } else if pc.DropLocal? {
      LocalDropped(w, o, pc.verdict, pc.stranded, reply);
    } else if Releasing(pc) {
      LocalKeptRelease(w, o, reply, plan);
    } else if Publishing(pc) {
      LocalKeptPublish(w, o, reply, plan);
    } else {
      LocalKeptRest(w, o, reply, plan);
    }
  }

  lemma MeddleFits(o: Oid, r: Releaser, tag: Tag, target: Option<Object>)
    requires LocalFits(o, r) && (target.Some? && target.value.Annotated? ==> target.value.maker != o)
    ensures LocalFits(o, r.(refs := Set(r.refs, tag, target)))
  {
  }

  ghost predicate LocalInv(w: World) {
    forall o | o in w.releasers :: LocalFits(o, w.releasers[o])
  }

  lemma LocalInvStep(w: World, a: Action)
    requires LocalInv(w)
    ensures LocalInv(Next(w, a))
  {
    if a.Run? && a.o in w.releasers {
      StepFrame(w, a.o, a.reply, a.plan);
      LocalStep(w, a.o, a.reply, a.plan);
    } else if a.Meddle? && a.o in w.releasers {
      if a.target.Some? && a.target.value.Annotated? ==> a.target.value.maker != a.o {
        MeddleFits(a.o, w.releasers[a.o], a.tag, a.target);
      }
    }
  }

  lemma {:induction false} LocalInvAlways(acts: seq<Action>)
    ensures LocalInv(Exec(acts))
  {
    if acts != [] {
      LocalInvAlways(acts[..|acts| - 1]);
      LocalInvStep(Exec(acts[..|acts| - 1]), acts[|acts| - 1]);
    }
  }

  // ---- What was published ----

  /** The tag as the releaser saw it on the remote while it held the lock. */
  predicate SeenAtHead(w: World, o: Oid, r: Releaser, tag: Tag) {
    && Inside(w, o) && w.lock == Some(o) && tag in w.tags && w.tags[tag].commit == r.head
    && (r.local.Some? ==> r.local == Some(tag) && w.tags[tag] == Made(o, r, tag))
  }

  ghost predicate WasSeen(acts: seq<Action>, o: Oid, r: Releaser, tag: Tag) {
    exists n | 0 <= n <= |acts| :: SeenAtHead(Exec(acts[..n]), o, r, tag)
  }

  function ClaimOf(verdict: Verdict): Option<Tag> {
    if verdict.Published? then Some(verdict.tag) else None
  }

  /** The tag a releaser is about to report, or reported. */
  function Claimed(pc: Pc): Option<Tag> {
    match pc
    case Announce(tag) => Some(tag)
    case ProbeLock(_, exit) => ClaimOf(VerdictOf(exit))
    case DeleteLock(_, exit) => ClaimOf(VerdictOf(exit))
    case ConfirmDelete(_, exit) => ClaimOf(VerdictOf(exit))
    case DropLocal(verdict, _) => ClaimOf(verdict)
    case Done(verdict, _) => ClaimOf(verdict)
    case _ => None
  }

  /** The tag being pushed is the local one. */
  predicate PushFits(r: Releaser) {
    match r.pc
    case Push(tag, _) => r.local == Some(tag)
    case ConfirmPush(tag) => r.local == Some(tag)
    case ReconcilePush(tag, _) => r.local == Some(tag)
    case _ => EarlyPc(r.pc) ==> r.local == None
  }

  /** A claim is carried along, or rests on what the step just read under the lock. */
  predicate ClaimRests(w: World, o: Oid, r: Releaser, s: Releaser) {
    && PushFits(s) && s.head == r.head
    && (Claimed(s.pc).Some? ==>
      s.local == r.local && (Claimed(r.pc) == Claimed(s.pc) || SeenAtHead(w, o, s, Claimed(s.pc).value)))
  }

  lemma ClaimRestsList(w: World, o: Oid, reply: Reply, plan: Plan)
    requires o in w.releasers && Publishing(w.releasers[o].pc) && !Pushing(w.releasers[o].pc)
    requires Fits(w.lock, o, w.releasers[o]) && PushFits(w.releasers[o])
    ensures var v := RunStep(w, o, reply, plan); o in v.releasers && ClaimRests(w, o, w.releasers[o], v.releasers[o])
  {
  }

  lemma ClaimRestsPush(w: World, o: Oid, reply: Reply, plan: Plan)
    requires o in w.releasers && Pushing(w.releasers[o].pc) && Fits(w.lock, o, w.releasers[o])
    requires PushFits(w.releasers[o])
    ensures var v := RunStep(w, o, reply, plan); o in v.releasers && ClaimRests(w, o, w.releasers[o], v.releasers[o])
  {
  }

  lemma ClaimRestsPublish(w: World, o: Oid, reply: Reply, plan: Plan)
    requires o in w.releasers && Publishing(w.releasers[o].pc) && Fits(w.lock, o, w.releasers[o])
    requires PushFits(w.releasers[o])
    ensures var v := RunStep(w, o, reply, plan); o in v.releasers && ClaimRests(w, o, w.releasers[o], v.releasers[o])
  {
    var pc := w.releasers[o].pc;
    if Pushing(pc) {
      ClaimRestsPush(w, o, reply, plan);
    } else {
      ClaimRestsList(w, o, reply, plan);
    }
  }

  lemma ClaimRestsProbe(w: World, o: Oid, reply: Reply, plan: Plan)
    requires o in w.releasers && w.releasers[o].pc.ProbeLock? && Fits(w.lock, o, w.releasers[o])
    requires PushFits(w.releasers[o])
    ensures var v := RunStep(w, o, reply, plan); o in v.releasers && ClaimRests(w, o, w.releasers[o], v.releasers[o])
  {
  }

  lemma ClaimRestsDelete(w: World, o: Oid, reply: Reply, plan: Plan)
    requires o in w.releasers && w.releasers[o].pc.DeleteLock? && Fits(w.lock, o, w.releasers[o])
    requires PushFits(w.releasers[o])
    ensures var v := RunStep(w, o, reply, plan); o in v.releasers && ClaimRests(w, o, w.releasers[o], v.releasers[o])
  {
  }

  lemma ClaimRestsConfirm(w: World, o: Oid, reply: Reply, plan: Plan)
    requires o in w.releasers && w.releasers[o].pc.ConfirmDelete? && Fits(w.lock, o, w.releasers[o])
    requires PushFits(w.releasers[o])
    ensures var v := RunStep(w, o, reply, plan); o in v.releasers && ClaimRests(w, o, w.releasers[o], v.releasers[o])
  {
  }

  lemma ClaimRestsRelease(w: World, o: Oid, reply: Reply, plan: Plan)
    requires o in w.releasers && Releasing(w.releasers[o].pc) && Fits(w.lock, o, w.releasers[o])
    requires PushFits(w.releasers[o])
    ensures var v := RunStep(w, o, reply, plan); o in v.releasers && ClaimRests(w, o, w.releasers[o], v.releasers[o])
  {
    var pc := w.releasers[o].pc;
    if pc.ProbeLock? {
      ClaimRestsProbe(w, o, reply, plan);
    } else if pc.DeleteLock? {
      ClaimRestsDelete(w, o, reply, plan);
    } else {
      ClaimRestsConfirm(w, o, reply, plan);
    }
  }

  lemma ClaimRestsRest(w: World, o: Oid, reply: Reply, plan: Plan)
    requires o in w.releasers && !Publishing(w.releasers[o].pc) && !Releasing(w.releasers[o].pc)
    requires Fits(w.lock, o, w.releasers[o]) && PushFits(w.releasers[o])
    ensures var v := RunStep(w, o, reply, plan); o in v.releasers && ClaimRests(w, o, w.releasers[o], v.releasers[o])
  {
  }

  ghost predicate ClaimsInv(acts: seq<Action>) {
    forall o | o in Exec(acts).releasers ::
      var r := Exec(acts).releasers[o];
      PushFits(r) && (Claimed(r.pc).Some? ==> WasSeen(acts, o, r, Claimed(r.pc).value))
  }

  lemma SeenLater(acts: seq<Action>, a: Action, o: Oid, r: Releaser, s: Releaser, tag: Tag)
    requires WasSeen(acts, o, r, tag) && s.head == r.head && s.local == r.local
    ensures WasSeen(acts + [a], o, s, tag)
  {
    var n :| 0 <= n <= |acts| && SeenAtHead(Exec(acts[..n]), o, r, tag);
    assert (acts + [a])[..n] == acts[..n];
  }

  lemma SeenNow(acts: seq<Action>, a: Action, o: Oid, r: Releaser, tag: Tag)
    requires SeenAtHead(Exec(acts), o, r, tag)
    ensures WasSeen(acts + [a], o, r, tag)
  {
    assert (acts + [a])[..|acts|] == acts;
  }

  lemma RunClaim(acts: seq<Action>, o: Oid, reply: Reply, plan: Plan)
    requires ClaimsInv(acts) && Inv(Exec(acts)) && o in Exec(acts).releasers
    ensures var (w, longer) := (Exec(acts), acts + [Run(o, reply, plan)]);
      var v := RunStep(w, o, reply, plan);
      && o in v.releasers && PushFits(v.releasers[o])
      && (Claimed(v.releasers[o].pc).Some? ==> WasSeen(longer, o, v.releasers[o], Claimed(v.releasers[o].pc).value))
  {
    var w := Exec(acts);
    var pc := w.releasers[o].pc;
    if Publishing(pc) {
      ClaimRestsPublish(w, o, reply, plan);
    } else if Releasing(pc) {
      ClaimRestsRelease(w, o, reply, plan);
    } else {
      ClaimRestsRest(w, o, reply, plan);
    }
    var (r, s) := (w.releasers[o], RunStep(w, o, reply, plan).releasers[o]);
    if Claimed(s.pc).Some? {
      if Claimed(r.pc) == Claimed(s.pc) {
        SeenLater(acts, Run(o, reply, plan), o, r, s, Claimed(s.pc).value);
      } else {
        SeenNow(acts, Run(o, reply, plan), o, s, Claimed(s.pc).value);
      }
    }
  }

  lemma OtherStep(w: World, a: Action, o: Oid)
    requires o in w.releasers && !(a.Run? && a.o == o)
    ensures o in Next(w, a).releasers
    ensures var (r, s) := (w.releasers[o], Next(w, a).releasers[o]);
      s.head == r.head && s.local == r.local && (s.pc == r.pc || s.pc.Killed?)
  {
    if a.Run? && a.o in w.releasers { StepFrame(w, a.o, a.reply, a.plan); }
  }

  /** What a releaser claims is not touched by the steps of others. */
  lemma OtherClaim(acts: seq<Action>, a: Action, o: Oid)
    requires ClaimsInv(acts) && o in Exec(acts).releasers && !(a.Run? && a.o == o)
    ensures var v := Next(Exec(acts), a);
      && o in v.releasers && PushFits(v.releasers[o])
      && (Claimed(v.releasers[o].pc).Some? ==> WasSeen(acts + [a], o, v.releasers[o], Claimed(v.releasers[o].pc).value))
  {
    OtherStep(Exec(acts), a, o);
    var (r, s) := (Exec(acts).releasers[o], Next(Exec(acts), a).releasers[o]);
    if Claimed(s.pc).Some? { SeenLater(acts, a, o, r, s, Claimed(s.pc).value); }
  }

  lemma ClaimsStep(acts: seq<Action>, a: Action)
    requires ClaimsInv(acts) && Inv(Exec(acts))
    ensures ClaimsInv(acts + [a])
  {
    var (w, longer) := (Exec(acts), acts + [a]);
    assert longer[..|longer| - 1] == acts;
    var v := Exec(longer);
    if a.Run? && a.o in w.releasers {
      StepFrame(w, a.o, a.reply, a.plan);
      RunClaim(acts, a.o, a.reply, a.plan);
    }
    forall o | o in v.releasers && o in w.releasers && !(a.Run? && a.o == o)
      ensures PushFits(v.releasers[o])
      ensures (Claimed(v.releasers[o].pc).Some? ==>
        WasSeen(longer, o, v.releasers[o], Claimed(v.releasers[o].pc).value))
    {
      OtherClaim(acts, a, o);
    }
  }

  lemma {:induction false} ClaimsAlways(acts: seq<Action>)
    ensures ClaimsInv(acts)
  {
    if acts != [] {
      var (before, a) := (acts[..|acts| - 1], acts[|acts| - 1]);
      assert before + [a] == acts;
      ClaimsAlways(before);
      InvAlways(before);
      ClaimsStep(before, a);
    }
  }

  /** If publish reports no error, its tag was seen on the remote at the released commit while the
      lock was held - as the very object it made, if it made one -, its lock is gone from the remote
      by its own delete, and no tag object of its making is left in its clone. */
  lemma PublishedIsComplete(acts: seq<Action>, o: Oid, tag: Tag)
    requires o in Exec(acts).releasers && Exec(acts).releasers[o].pc == Done(Published(tag), false)
    ensures var r := Exec(acts).releasers[o];
      && WasSeen(acts, o, r, tag)
      && r.acquired && r.deleted && Exec(acts).lock != Some(o)
      && !MadeBy(r.refs, o)
  {
    InvAlways(acts);
    LocalInvAlways(acts);
    ClaimsAlways(acts);
  }
}
