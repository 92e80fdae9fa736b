/** The registry against the store: which names are registered, and which streams exist. */
module MemQRegistry {
  import opened JetStream
  import opened NatsBackend
  import opened MemQSystem
  import opened MemQAccounting
  import opened Text

  /** A call that holds the lock between deleting the stream of `q` and unregistering it. */
  ghost predicate BeingDeleted(s: State, q: string) {
    exists t :: t in s.ops && s.ops[t] == DeleteDone(q)
  }

  predicate IsCreating(op: Op, q: string) { op.CreateAdded? && op.q == q }

  /** A call that holds the lock between obtaining the stream of `q` and registering it. */
  ghost predicate BeingCreated(s: State, q: string) {
    exists t :: t in s.ops && IsCreating(s.ops[t], q)
  }

  /** `q` has a stream because this backend says so: registered, or about to be. */
  ghost predicate Owned(s: State, q: string) {
    (q in s.b.queues && !BeingDeleted(s, q)) || BeingCreated(s, q)
  }

  /** The step by which a create obtains the stream of `q`: made, or adopted. */
  predicate Obtains(s: State, a: Action, q: string)
    requires Coherent(s) && Enabled(s, a)
  {
    a.CreateBegin? && IsCreating(NextOp(s, a), q)
  }

  /** The step by which a delete removes the stream of `q`. */
  predicate Drops(s: State, a: Action, q: string)
    requires Coherent(s) && Enabled(s, a)
  {
    a.DeleteBegin? && NextOp(s, a) == DeleteDone(q)
  }

  /** Whether the last create or delete of `q` in the run that took effect was a create. */
  ghost predicate LastWasCreate(js: Store, actions: seq<Action>, q: string)
    requires IsRun(Start(js), actions)
  {
    if actions == [] then false
    else
      var front, a := actions[..|actions| - 1], actions[|actions| - 1];
      if Obtains(Run(Start(js), front), a, q) then true
      else if Drops(Run(Start(js), front), a, q) then false
      else LastWasCreate(js, front, q)
  }

  /** Whether some delete of `q` took effect. */
  ghost predicate Dropped(js: Store, actions: seq<Action>, q: string)
    requires IsRun(Start(js), actions)
  {
    actions != []
    && (Drops(Run(Start(js), actions[..|actions| - 1]), actions[|actions| - 1], q)
        || Dropped(js, actions[..|actions| - 1], q))
  }

  // ---------- Names that stay apart ----------

  lemma OwnershipAfter(s: State, a: Action, q: string)
    requires Coherent(s) && Enabled(s, a)
    ensures Coherent(Apply(s, a))
    ensures Obtains(s, a, q) ==> Owned(Apply(s, a), q)
    ensures Drops(s, a, q) ==> !Owned(Apply(s, a), q)
  {
    StepStaysCoherent(s, a);
    if IsCreating(NextOp(s, a), q) {
      assert IsCreating(Apply(s, a).ops[a.t], q);
    }
    if NextOp(s, a) == DeleteDone(q) {
      assert Apply(s, a).ops[a.t] == DeleteDone(q);
    }
  }

  /** Only obtaining and deleting make a call a writer. */
  lemma MoverWrites(s: State, a: Action, q: string)
    requires Coherent(s) && Enabled(s, a)
    ensures IsCreating(NextOp(s, a), q) <==> Obtains(s, a, q)
    ensures NextOp(s, a) == DeleteDone(q) <==> Drops(s, a, q)
    ensures IsCreating(OpOf(s, a.t), q) ==> a.CreateEnd?
    ensures OpOf(s, a.t) == DeleteDone(q) ==> a.DeleteEnd?
  {
  }

  lemma CreatorsKept(s: State, a: Action, q: string)
    requires Coherent(s) && Enabled(s, a) && !Obtains(s, a, q)
    ensures BeingCreated(Apply(s, a), q) <==> BeingCreated(s, q) && !(a.CreateEnd? && IsCreating(OpOf(s, a.t), q))
  {
    var ops, ops' := s.ops, Apply(s, a).ops;
    MoverWrites(s, a, q);
    if BeingCreated(s, q) {
      var t :| t in ops && IsCreating(ops[t], q);
      assert t != a.t ==> IsCreating(ops'[t], q);
    }
    if BeingCreated(Apply(s, a), q) {
      var t :| t in ops' && IsCreating(ops'[t], q);
      assert t != a.t && IsCreating(ops[t], q);
    }
  }

  lemma DeletersKept(s: State, a: Action, q: string)
    requires Coherent(s) && Enabled(s, a) && !Drops(s, a, q)
    ensures BeingDeleted(Apply(s, a), q) <==> BeingDeleted(s, q) && !(a.DeleteEnd? && OpOf(s, a.t) == DeleteDone(q))
  {
    var ops, ops' := s.ops, Apply(s, a).ops;
    MoverWrites(s, a, q);
    if BeingDeleted(s, q) {
      var t :| t in ops && ops[t] == DeleteDone(q);
      assert t != a.t ==> ops'[t] == DeleteDone(q);
    }
    if BeingDeleted(Apply(s, a), q) {
      var t :| t in ops' && ops'[t] == DeleteDone(q);
      assert t != a.t && ops[t] == DeleteDone(q);
    }
  }

  /** Steps other than obtaining or deleting a stream leave ownership as it is; the lock makes
      registering and unregistering part of what began before. */
  lemma OwnershipKept(s: State, a: Action, q: string)
    requires Coherent(s) && Enabled(s, a)
    requires !Obtains(s, a, q) && !Drops(s, a, q)
    ensures Owned(Apply(s, a), q) <==> Owned(s, q)
  {
    CreatorsKept(s, a, q);
    DeletersKept(s, a, q);
    assert a.t in s.ops ==> CoherentOp(s.b, s.ops[a.t]);
  }

  /** Which steps change whether the stream of `q` exists. */
  lemma StreamAfter(s: State, a: Action, q: string, names: set<string>)
    requires Coherent(s) && Enabled(s, a) && Named(s, names) && Distinct(names) && q in names
    requires BeginsWith(a).Some? ==> BeginsWith(a).value in names
    ensures StreamName(q) in NextBackend(s, a).js <==>
      Obtains(s, a, q) || (StreamName(q) in s.b.js && !Drops(s, a, q))
  {
    if !a.CreateBegin? && !a.DeleteBegin? {
      SameStreams(s, a);
    }
  }

  lemma SameStreams(s: State, a: Action)
    requires Coherent(s) && Enabled(s, a) && !a.CreateBegin? && !a.DeleteBegin?
    ensures NextBackend(s, a).js.Keys == s.b.js.Keys
  {
  }

  /** Ownership is what the last effective create or delete left, for any names. */
  lemma {:induction false} OwnedIffLastWasCreate(js: Store, actions: seq<Action>, q: string)
    requires IsRun(Start(js), actions)
    ensures Owned(Run(Start(js), actions), q) <==> LastWasCreate(js, actions, q)
  {
    if actions != [] {
      var front, a := actions[..|actions| - 1], actions[|actions| - 1];
      OwnedIffLastWasCreate(js, front, q);
      OwnershipAfter(Run(Start(js), front), a, q);
      if !Obtains(Run(Start(js), front), a, q) && !Drops(Run(Start(js), front), a, q) {
        OwnershipKept(Run(Start(js), front), a, q);
      }
    }
  }

  /** The stream of `q` exists because `q` owns it, or because it was there and was never deleted. */
  ghost predicate Tracks(s: State, q: string, before: bool, dropped: bool) {
    StreamName(q) in s.b.js <==> Owned(s, q) || (before && !dropped)
  }

  lemma StepTracks(s: State, a: Action, names: set<string>, q: string, before: bool, dropped: bool)
    requires Coherent(s) && Enabled(s, a) && Named(s, names) && Distinct(names) && q in names
    requires BeginsWith(a).Some? ==> BeginsWith(a).value in names
    requires Tracks(s, q, before, dropped)
    ensures Coherent(Apply(s, a)) && Tracks(Apply(s, a), q, before, dropped || Drops(s, a, q))
  {
    StreamAfter(s, a, q, names);
    OwnershipAfter(s, a, q);
    if !Obtains(s, a, q) && !Drops(s, a, q) {
      OwnershipKept(s, a, q);
    }
  }

  lemma {:induction false} RunIsNamed(js: Store, actions: seq<Action>, names: set<string>)
    requires Sane(js) && Compatible(js, names) && Distinct(names)
    requires IsRun(Start(js), actions) && Uses(actions, names)
    ensures Named(Run(Start(js), actions), names)
  {
    if actions != [] {
      var front := actions[..|actions| - 1];
      assert forall i :: 0 <= i < |front| ==> front[i] == actions[i];
      RunIsNamed(js, front, names);
      StepStaysNamed(Run(Start(js), front), actions[|actions| - 1], names);
    }
  }

  lemma {:induction false} RunTracks(js: Store, actions: seq<Action>, names: set<string>, q: string)
    requires Sane(js) && Compatible(js, names) && Distinct(names) && q in names
    requires IsRun(Start(js), actions) && Uses(actions, names)
    ensures StreamName(q) in Run(Start(js), actions).b.js <==>
      Owned(Run(Start(js), actions), q) || (StreamName(q) in js && !Dropped(js, actions, q))
  {
    if actions != [] {
      var front, a := actions[..|actions| - 1], actions[|actions| - 1];
      assert forall i :: 0 <= i < |front| ==> front[i] == actions[i];
      RunTracks(js, front, names, q);
      RunIsNamed(js, front, names);
      StepTracks(Run(Start(js), front), a, names, q, StreamName(q) in js, Dropped(js, front, q));
    }
  }

  /** In every reachable state in which no create or delete is half done: the registered names
      are exactly those whose last effective create or delete was a create; a stream exists
      exactly if its queue is registered, or it was there at the start and was never deleted. */
  lemma {:induction false} RegistryMatchesStore(js: Store, actions: seq<Action>, names: set<string>, q: string)
    requires Sane(js) && Compatible(js, names) && Distinct(names) && q in names
    requires IsRun(Start(js), actions) && Uses(actions, names) && NoWriter(Run(Start(js), actions))
    ensures var s := Run(Start(js), actions);
      && (q in s.b.queues <==> LastWasCreate(js, actions, q))
      && (StreamName(q) in s.b.js <==> q in s.b.queues || (StreamName(q) in js && !Dropped(js, actions, q)))
      && (q in s.b.queues ==> s.b.js[StreamName(q)].subject == Subject(q))
  {
    RunTracks(js, actions, names, q);
    RunIsNamed(js, actions, names);
    OwnedIffLastWasCreate(js, actions, q);
    assert Owned(Run(Start(js), actions), q) <==> q in Run(Start(js), actions).b.queues;
  }

  // ---------- Names that collide ----------

  /** A run over these names that ends with no create or delete half done. */
  ghost predicate Settled(js: Store, actions: seq<Action>, names: set<string>) {
    && Sane(js) && Compatible(js, names)
    && IsRun(Start(js), actions) && Uses(actions, names) && NoWriter(Run(Start(js), actions))
  }

  ghost predicate NoOrphan(js: Store, actions: seq<Action>)
    requires IsRun(Start(js), actions)
  {
    var b := Run(Start(js), actions).b;
    forall q :: q in b.queues ==> StreamName(q) in b.js
  }

  /** Over these names, no run ever leaves a registered queue without its stream. */
  ghost predicate NeverOrphans(names: set<string>) {
    forall js, actions :: Settled(js, actions, names) ==> NoOrphan(js, actions)
  }

  function CreateRun(p: string): seq<Action> {
    [] + [CreateBegin(0, p, false, false)] + [CreateEnd(0)]
  }

  function CreateBothRun(p: string, q: string): seq<Action> {
    CreateRun(p) + [CreateBegin(0, q, false, false)] + [CreateEnd(0)]
  }

  function CollisionRun(p: string, q: string): seq<Action> {
    CreateBothRun(p, q) + [DeleteBegin(0, q, false)] + [DeleteEnd(0)]
  }

  ghost predicate AllIdle(s: State) {
    forall t :: t in s.ops ==> s.ops[t] == Idle
  }

  lemma IdleState(s: State)
    requires AllIdle(s)
    ensures NoWriter(s) && NoReader(s) && OpOf(s, 0) == Idle
  {
  }

  /** The two steps of creating a queue whose stream name is free, or in use. */
  lemma CreateSteps(s: State, q: string)
    requires Coherent(s) && AllIdle(s)
    requires q != "" && q !in s.b.queues && AddOutcomeOf(s.b.js, StreamName(q), Subject(q), false, false) != Refused
    ensures var a := CreateBegin(0, q, false, false);
      && Enabled(s, a) && Coherent(Apply(s, a)) && Enabled(Apply(s, a), CreateEnd(0))
      && var s2 := Apply(Apply(s, a), CreateEnd(0));
         && AllIdle(s2)
         && s2.b == Register(s.b.(js := AfterAdd(s.b.js, StreamName(q), Subject(q), false, false)), q)
  {
    IdleState(s);
    var a := CreateBegin(0, q, false, false);
    StepStaysCoherent(s, a);
    assert IsCreating(Apply(s, a).ops[0], q);
  }

  /** The two steps of deleting a registered queue that has its stream. */
  lemma DeleteSteps(s: State, q: string)
    requires Coherent(s) && AllIdle(s)
    requires q != "" && q in s.b.queues && StreamName(q) in s.b.js
    ensures var a := DeleteBegin(0, q, false);
      && Enabled(s, a) && Coherent(Apply(s, a)) && Enabled(Apply(s, a), DeleteEnd(0))
      && var s2 := Apply(Apply(s, a), DeleteEnd(0));
         && AllIdle(s2)
         && s2.b.queues == s.b.queues - {q} && s2.b.js == s.b.js - {StreamName(q)}
  {
    IdleState(s);
    var a := DeleteBegin(0, q, false);
    StepStaysCoherent(s, a);
    assert Apply(s, a).ops[0] == DeleteDone(q);
  }

  lemma CollidingNamesAreNotEmpty(p: string, q: string)
    requires p != q && StreamName(p) == StreamName(q)
    ensures p != "" && q != ""
  {
    assert |StreamName(p)| == 5 + |p| && |StreamName(q)| == 5 + |q|;
  }

  /** The first queue with its stream, and nothing else. */
  predicate HasFirst(b: Backend, p: string) {
    && b.queues == map[p := 0] && b.cells == [Cell(p, 0, 0, 0)]
    && b.js == map[StreamName(p) := Stream(Subject(p), [], 0, map[])]
  }

  lemma FirstCreate(p: string)
    requires p != ""
    ensures IsRun(Start(map[]), CreateRun(p))
    ensures var s := Run(Start(map[]), CreateRun(p)); AllIdle(s) && HasFirst(s.b, p)
  {
    CreateSteps(Start(map[]), p);
    TwoSteps(Start(map[]), [], CreateBegin(0, p, false, false), CreateEnd(0));
  }

  /** Both queues are registered, over the one stream of the first. */
  predicate HasBoth(b: Backend, p: string, q: string) {
    && b.queues.Keys == {p, q}
    && b.js == map[StreamName(p) := Stream(Subject(p), [], 0, map[])]
    && b.queues[q] < |b.cells| && b.cells[b.queues[q]] == Cell(q, 0, 0, 0)
  }

  lemma SecondRegisters(b: Backend, p: string, q: string)
    requires p != q && StreamName(p) == StreamName(q) && HasFirst(b, p)
    ensures q !in b.queues && AddOutcomeOf(b.js, StreamName(q), Subject(q), false, false) == NameInUse
    ensures HasBoth(Register(b.(js := AfterAdd(b.js, StreamName(q), Subject(q), false, false)), q), p, q)
  {
  }

  lemma SecondCreate(p: string, q: string)
    requires p != q && StreamName(p) == StreamName(q)
    ensures IsRun(Start(map[]), CreateBothRun(p, q))
    ensures var s := Run(Start(map[]), CreateBothRun(p, q)); AllIdle(s) && HasBoth(s.b, p, q)
  {
    CollidingNamesAreNotEmpty(p, q);
    FirstCreate(p);
    var s := Run(Start(map[]), CreateRun(p));
    SecondRegisters(s.b, p, q);
    CreateSteps(s, q);
    TwoSteps(Start(map[]), CreateRun(p), CreateBegin(0, q, false, false), CreateEnd(0));
  }

  lemma CollisionRunUses(p: string, q: string)
    ensures Uses(CollisionRun(p, q), {p, q})
  {
  }

  lemma CollisionRunEnds(p: string, q: string)
    requires p != q && StreamName(p) == StreamName(q)
    ensures IsRun(Start(map[]), CollisionRun(p, q))
    ensures var s := Run(Start(map[]), CollisionRun(p, q));
      AllIdle(s) && s.b.queues.Keys == {p} && s.b.js.Keys == {}
  {
    CollidingNamesAreNotEmpty(p, q);
    SecondCreate(p, q);
    DeleteSteps(Run(Start(map[]), CreateBothRun(p, q)), q);
    TwoSteps(Start(map[]), CreateBothRun(p, q), DeleteBegin(0, q, false), DeleteEnd(0));
  }

  /** Create one name, create the other (which finds the stream in use and is registered all the
      same), delete the other: the first is still registered and its stream is gone. */
  lemma {:induction false} CollisionOrphans(p: string, q: string)
    requires p != q && StreamName(p) == StreamName(q)
    ensures Settled(map[], CollisionRun(p, q), {p, q})
    ensures p in Run(Start(map[]), CollisionRun(p, q)).b.queues
    ensures StreamName(p) !in Run(Start(map[]), CollisionRun(p, q)).b.js
  {
    CollisionRunUses(p, q);
    CollisionRunEnds(p, q);
    IdleState(Run(Start(map[]), CollisionRun(p, q)));
  }

  lemma {:induction false} DistinctNeverOrphans(js: Store, actions: seq<Action>, names: set<string>)
    requires Distinct(names) && Settled(js, actions, names)
    ensures NoOrphan(js, actions)
  {
    RunIsNamed(js, actions, names);
    var s := Run(Start(js), actions);
    forall q | q in s.b.queues ensures StreamName(q) in s.b.js {
      RegistryMatchesStore(js, actions, names, q);
    }
  }

  /** The registry never points at a missing stream, over every run, exactly when no two of the
      names have the same upper case. */
  lemma {:induction false} NeverOrphansIffDistinct(names: set<string>)
    ensures NeverOrphans(names) <==> Distinct(names)
  {
    if Distinct(names) {
      forall js, actions | Settled(js, actions, names) ensures NoOrphan(js, actions) {
        DistinctNeverOrphans(js, actions, names);
      }
    } else {
      var p, q :| p in names && q in names && p != q && StreamName(p) == StreamName(q);
      CollisionOrphans(p, q);
      assert Settled(map[], CollisionRun(p, q), names);
      assert !NoOrphan(map[], CollisionRun(p, q));
    }
  }

  function CollisionPutRun(p: string, q: string, body: string): seq<Action> {
    CreateBothRun(p, q) + [PutBegin(0, p, body)] + [Publish(0, StreamName(p), true)] + [PutCount(0, false)]
  }

  /** Colliding names also break the accounting: a message put to one of them shows up as depth
      of the other, which has counted nothing and has nothing in flight. */
  lemma {:induction false} CollisionMiscounts(p: string, q: string, body: string)
    requires p != q && StreamName(p) == StreamName(q)
    ensures IsRun(Start(map[]), CollisionPutRun(p, q, body))
    ensures var s := Run(Start(map[]), CollisionPutRun(p, q, body));
      && AllIdle(s) && q in s.b.queues && StreamName(q) in s.b.js
      && Depth(s.b.js[StreamName(q)]) == 1 && s.b.cells[s.b.queues[q]].enq == 0
  {
    SecondCreate(p, q);
    var s, acts := Start(map[]), CreateBothRun(p, q);
    IdleState(Run(s, acts));
    RunSnoc(s, acts, PutBegin(0, p, body));
    RunSnoc(s, acts + [PutBegin(0, p, body)], Publish(0, StreamName(p), true));
    RunSnoc(s, acts + [PutBegin(0, p, body)] + [Publish(0, StreamName(p), true)], PutCount(0, false));
  }
}
