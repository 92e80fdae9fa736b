/** The queue backend under concurrency. Put, get and drain look their queue up under a brief
    read lock and then act on the stream and the counters in separate steps; create and delete
    hold the write lock from their check to their registry update; stats holds a read lock
    throughout. Any number of calls run at once. Streams are written by this backend only. */
module MemQSystem {
  import opened JetStream
  import opened NatsBackend
  import opened Text

  /** A stats entry, with what was in flight when its parts were read. */
  datatype Seen = Seen(stat: Stat, putsAtDepth: nat, putsAtEnq: nat, deqAtEnq: nat)

  /** Where one call is. `cell` is the counter cell it looked up. */
  datatype Op =
    | Idle
    | PutFound(q: string, cell: nat, body: string)
    | PutPublished(q: string, cell: nat)
    | GetFound(q: string, cell: nat)
    | GetSubscribed(q: string, cell: nat, stream: string)
    | GetFetched(q: string, cell: nat)
    | DrainFound(q: string, cell: nat)
    | DrainRead(q: string, cell: nat, msgs: nat)
    | DrainReady(q: string, cell: nat, counted: nat)
    | CreateAdded(q: string, inUse: bool)
    | DeleteDone(q: string)
    | StatsNext(todo: set<string>, acc: seq<Seen>)
    | StatsDepth(todo: set<string>, acc: seq<Seen>, q: string, cell: nat, depth: nat, puts: nat)
    | StatsEnq(todo: set<string>, acc: seq<Seen>, q: string, cell: nat, depth: nat, puts: nat, enq: nat, putsAtEnq: nat, deqAtEnq: nat)
    | StatsDeq(todo: set<string>, acc: seq<Seen>, q: string, cell: nat, depth: nat, puts: nat, enq: nat, putsAtEnq: nat, deqAtEnq: nat, deq: nat)

  predicate HoldsCell(op: Op) {
    op.PutFound? || op.PutPublished? || op.GetFound? || op.GetSubscribed? || op.GetFetched?
    || op.DrainFound? || op.DrainRead? || op.DrainReady? || op.StatsDepth? || op.StatsEnq? || op.StatsDeq?
  }

  predicate IsWriter(op: Op) { op.CreateAdded? || op.DeleteDone? }

  predicate IsReader(op: Op) { op.StatsNext? || op.StatsDepth? || op.StatsEnq? || op.StatsDeq? }

  datatype State = State(b: Backend, ops: map<nat, Op>)

  function OpOf(s: State, t: nat): Op {
    if t in s.ops then s.ops[t] else Idle
  }

  /** One step of call `t`. A call that finds nothing, or whose JetStream call fails, is over. */
  datatype Action =
    | PutBegin(t: nat, q: string, body: string)
    | Publish(t: nat, stream: string, ok: bool)
    | PutCount(t: nat, idFault: bool)
    | GetBegin(t: nat, q: string)
    | Subscribe(t: nat, how: Subscribing)
    | Fetch(t: nat, answer: FetchFault)
    | GetCount(t: nat)
    | DrainBegin(t: nat, q: string)
    | DrainInfo(t: nat, fault: bool)
    | DrainCount(t: nat)
    | Purge(t: nat, fault: bool)
    | CreateBegin(t: nat, q: string, same: bool, fault: bool)
    | CreateEnd(t: nat)
    | DeleteBegin(t: nat, q: string, fault: bool)
    | DeleteEnd(t: nat)
    | StatsBegin(t: nat)
    | StatsInfo(t: nat, q: string, fault: bool)
    | StatsLoadEnq(t: nat)
    | StatsLoadDeq(t: nat)
    | StatsLoadDrained(t: nat)
    | StatsEnd(t: nat)

  predicate NoWriter(s: State) { forall t :: t in s.ops ==> !IsWriter(s.ops[t]) }

  predicate NoReader(s: State) { forall t :: t in s.ops ==> !IsReader(s.ops[t]) }

  /** Which step a call can take, and what its locks and channels allow. */
  predicate Enabled(s: State, a: Action) {
    var op := OpOf(s, a.t);
    match a
    case PutBegin(_, _, _) => op.Idle? && NoWriter(s)
    case Publish(_, n, ok) => op.PutFound? && (ok ==> n in s.b.js && s.b.js[n].subject == Subject(op.q))
    case PutCount(_, _) => op.PutPublished?
    case GetBegin(_, _) => op.Idle? && NoWriter(s)
    case Subscribe(_, _) => op.GetFound?
    case Fetch(_, _) => op.GetSubscribed?
    case GetCount(_) => op.GetFetched?
    case DrainBegin(_, _) => op.Idle? && NoWriter(s)
    case DrainInfo(_, _) => op.DrainFound?
    case DrainCount(_) => op.DrainRead?
    case Purge(_, _) => op.DrainReady?
    case CreateBegin(_, _, _, _) => op.Idle? && NoWriter(s) && NoReader(s)
    case CreateEnd(_) => op.CreateAdded?
    case DeleteBegin(_, _, _) => op.Idle? && NoWriter(s) && NoReader(s)
    case DeleteEnd(_) => op.DeleteDone?
    case StatsBegin(_) => op.Idle? && NoWriter(s)
    case StatsInfo(_, q, _) => op.StatsNext? && q in op.todo
    case StatsLoadEnq(_) => op.StatsDepth?
    case StatsLoadDeq(_) => op.StatsEnq?
    case StatsLoadDrained(_) => op.StatsDeq?
    case StatsEnd(_) => op.StatsNext? && op.todo == {}
  }

  /** The puts whose message is stored but not yet counted in cell `k`. */
  function Puts(ops: map<nat, Op>, k: nat): set<nat> {
    set t | t in ops && ops[t].PutPublished? && ops[t].cell == k
  }

  /** The gets whose message is delivered but not yet counted in cell `k`. */
  function Gets(ops: map<nat, Op>, k: nat): set<nat> {
    set t | t in ops && ops[t].GetFetched? && ops[t].cell == k
  }

  function NextOp(s: State, a: Action): Op
    requires Enabled(s, a) && Coherent(s)
  {
    var op, js := OpOf(s, a.t), s.b.js;
    match a
    case PutBegin(_, q, body) => if q in s.b.queues then PutFound(q, s.b.queues[q], body) else Idle
    case Publish(_, _, ok) => if ok then PutPublished(op.q, op.cell) else Idle
    case PutCount(_, _) => Idle
    case GetBegin(_, q) => if q in s.b.queues then GetFound(q, s.b.queues[q]) else Idle
    case Subscribe(_, how) => if CanSubscribe(js, op.q, how) then GetSubscribed(op.q, op.cell, StreamFor(op.q, how)) else Idle
    case Fetch(_, fault) => if CanFetch(js, op.stream, op.q, fault) then GetFetched(op.q, op.cell) else Idle
    case GetCount(_) => Idle
    case DrainBegin(_, q) => if q in s.b.queues then DrainFound(q, s.b.queues[q]) else Idle
    case DrainInfo(_, fault) =>
      if !fault && StreamName(op.q) in js then DrainRead(op.q, op.cell, Depth(js[StreamName(op.q)]))
      else DrainReady(op.q, op.cell, 0)
    case DrainCount(_) => DrainReady(op.q, op.cell, op.msgs)
    case Purge(_, _) => Idle
    case CreateBegin(_, q, same, fault) =>
      if q != "" && q !in s.b.queues && AddOutcomeOf(js, StreamName(q), Subject(q), same, fault) != Refused
      then CreateAdded(q, AddOutcomeOf(js, StreamName(q), Subject(q), same, fault) == NameInUse) else Idle
    case CreateEnd(_) => Idle
    case DeleteBegin(_, q, fault) =>
      if q != "" && q in s.b.queues && !fault && StreamName(q) in js then DeleteDone(q) else Idle
    case DeleteEnd(_) => Idle
    case StatsBegin(_) => StatsNext(s.b.queues.Keys, [])
    case StatsInfo(_, q, fault) =>
      if !fault && StreamName(q) in js && q in s.b.queues
      then StatsDepth(op.todo - {q}, op.acc, q, s.b.queues[q], Depth(js[StreamName(q)]), |Puts(s.ops, s.b.queues[q])|)
      else StatsNext(op.todo - {q}, op.acc)
    case StatsLoadEnq(_) =>
      var c := s.b.cells[op.cell];
      StatsEnq(op.todo, op.acc, op.q, op.cell, op.depth, op.puts, c.enq, |Puts(s.ops, op.cell)|, c.deq)
    case StatsLoadDeq(_) =>
      StatsDeq(op.todo, op.acc, op.q, op.cell, op.depth, op.puts, op.enq, op.putsAtEnq, op.deqAtEnq, s.b.cells[op.cell].deq)
    case StatsLoadDrained(_) =>
      var stat := Stat(op.q, op.depth, op.enq, op.deq, s.b.cells[op.cell].drained);
      StatsNext(op.todo, op.acc + [Seen(stat, op.puts, op.putsAtEnq, op.deqAtEnq)])
    case StatsEnd(_) => Idle
  }

  predicate CanFetch(js: Store, stream: string, q: string, fault: FetchFault) {
    fault == NoFault && stream in js && NextIndex(js[stream], Durable(q)) < |js[stream].log|
  }

  function NextBackend(s: State, a: Action): Backend
    requires Enabled(s, a) && Coherent(s)
  {
    var op, b := OpOf(s, a.t), s.b;
    match a
    case Publish(_, n, ok) => if ok then b.(js := AfterPublish(b.js, n, op.body)) else b
    case PutCount(_, _) => CountEnq(b, op.cell)
    case Subscribe(_, how) =>
      if CanSubscribe(b.js, op.q, how) then b.(js := AfterSubscribe(b.js, StreamFor(op.q, how), Durable(op.q))) else b
    case Fetch(_, fault) =>
      if CanFetch(b.js, op.stream, op.q, fault) then b.(js := AfterFetch(b.js, op.stream, Durable(op.q))) else b
    case GetCount(_) => CountDeq(b, op.cell)
    case DrainCount(_) => CountDrained(b, op.cell, op.msgs)
    case Purge(_, fault) =>
      if !fault && StreamName(op.q) in b.js then b.(js := AfterPurge(b.js, StreamName(op.q))) else b
    case CreateBegin(_, q, same, fault) =>
      if q != "" && q !in b.queues then b.(js := AfterAdd(b.js, StreamName(q), Subject(q), same, fault)) else b
    case CreateEnd(_) => Register(b, op.q)
    case DeleteBegin(_, q, fault) =>
      if q != "" && q in b.queues && !fault && StreamName(q) in b.js then b.(js := b.js - {StreamName(q)}) else b
    case DeleteEnd(_) => b.(queues := b.queues - {op.q})
    case _ => b
  }

  function Apply(s: State, a: Action): State
    requires Enabled(s, a) && Coherent(s)
  {
    State(NextBackend(s, a), s.ops[a.t := NextOp(s, a)])
  }

  // ---------- Coherence: what every interleaving keeps ----------

  /** Registered queues and pending calls name counter cells of their own queue; the write lock
      excludes other writers and stats; a create is registering a name that is not registered. */
  ghost predicate Coherent(s: State) {
    && WellFormed(s.b)
    && (forall t :: t in s.ops ==> CoherentOp(s.b, s.ops[t]))
    && (forall t, u :: t in s.ops && u in s.ops && t != u && IsWriter(s.ops[t]) ==> !IsWriter(s.ops[u]) && !IsReader(s.ops[u]))
  }

  ghost predicate CoherentOp(b: Backend, op: Op) {
    && (HoldsCell(op) ==> op.cell < |b.cells| && b.cells[op.cell].name == op.q)
    && (op.CreateAdded? ==> op.q !in b.queues)
    && (op.DeleteDone? ==> op.q in b.queues)
    && (IsReader(op) ==> StatsCoherent(b, op))
  }

  /** What a stats call still has to visit is registered and not reported yet, each name once. */
  ghost predicate StatsCoherent(b: Backend, op: Op)
    requires IsReader(op)
  {
    && op.todo <= b.queues.Keys
    && (forall i, j :: 0 <= i < j < |op.acc| ==> op.acc[i].stat.name != op.acc[j].stat.name)
    && (forall i :: 0 <= i < |op.acc| ==> op.acc[i].stat.name !in op.todo)
    && (!op.StatsNext? ==>
          && op.q !in op.todo && op.q in b.queues && op.cell == b.queues[op.q]
          && forall i :: 0 <= i < |op.acc| ==> op.acc[i].stat.name != op.q)
  }

  /** The cells keep their names and never go away; the registry changes only under the lock. */
  ghost predicate CellsKept(b: Backend, b': Backend) {
    |b.cells| <= |b'.cells| && forall k :: 0 <= k < |b.cells| ==> b'.cells[k].name == b.cells[k].name
  }

  predicate Counts(a: Action) { a.PutCount? || a.GetCount? || a.DrainCount? }

  predicate Registers(a: Action) { a.CreateEnd? || a.DeleteEnd? }

  /** Steps that neither count nor register change at most the streams. */
  lemma StreamStepKeepsRegistry(s: State, a: Action)
    requires Coherent(s) && Enabled(s, a) && !Counts(a) && !Registers(a)
    ensures NextBackend(s, a).queues == s.b.queues && NextBackend(s, a).cells == s.b.cells
  {
  }

  lemma CountStepKeepsCells(s: State, a: Action)
    requires Coherent(s) && Enabled(s, a) && Counts(a)
    ensures CellsKept(s.b, NextBackend(s, a)) && NextBackend(s, a).queues == s.b.queues
  {
    assert CoherentOp(s.b, s.ops[a.t]);
  }

  lemma RegisterStepKeepsCells(s: State, a: Action)
    requires Coherent(s) && Enabled(s, a) && Registers(a)
    ensures CellsKept(s.b, NextBackend(s, a)) && WellFormed(NextBackend(s, a))
  {
    assert CoherentOp(s.b, s.ops[a.t]);
  }

  lemma StepKeepsCells(s: State, a: Action)
    requires Coherent(s) && Enabled(s, a)
    ensures CellsKept(s.b, NextBackend(s, a)) && WellFormed(NextBackend(s, a))
    ensures a.CreateEnd? || a.DeleteEnd? || NextBackend(s, a).queues == s.b.queues
  {
    if Registers(a) {
      RegisterStepKeepsCells(s, a);
    } else if Counts(a) {
      CountStepKeepsCells(s, a);
    } else {
      StreamStepKeepsRegistry(s, a);
    }
  }

  lemma ReaderStaysCoherent(s: State, a: Action)
    requires Coherent(s) && Enabled(s, a) && IsReader(NextOp(s, a))
    ensures CoherentOp(NextBackend(s, a), NextOp(s, a))
  {
    StreamStepKeepsRegistry(s, a);
    assert a.t in s.ops ==> CoherentOp(s.b, s.ops[a.t]);
  }

  lemma MoverStaysCoherent(s: State, a: Action)
    requires Coherent(s) && Enabled(s, a)
    ensures CoherentOp(NextBackend(s, a), NextOp(s, a))
  {
    if IsReader(NextOp(s, a)) {
      ReaderStaysCoherent(s, a);
    } else {
      StepKeepsCells(s, a);
      assert a.t in s.ops ==> CoherentOp(s.b, s.ops[a.t]);
    }
  }

  lemma OthersStayCoherent(s: State, a: Action, u: nat)
    requires Coherent(s) && Enabled(s, a) && u in s.ops && u != a.t
    ensures CoherentOp(NextBackend(s, a), s.ops[u])
  {
    StepKeepsCells(s, a);
    assert CoherentOp(s.b, s.ops[u]);
    if a.CreateEnd? || a.DeleteEnd? {
      assert IsWriter(s.ops[a.t]);
    }
  }

  lemma LocksStayExclusive(s: State, a: Action, t: nat, u: nat)
    requires Coherent(s) && Enabled(s, a)
    requires var ops := Apply(s, a).ops; t in ops && u in ops && t != u && IsWriter(ops[t])
    ensures !IsWriter(Apply(s, a).ops[u]) && !IsReader(Apply(s, a).ops[u])
  {
  }

  /** Every step of every interleaving keeps the state coherent. */
  lemma {:induction false} StepStaysCoherent(s: State, a: Action)
    requires Coherent(s) && Enabled(s, a)
    ensures Coherent(Apply(s, a))
  {
    var s' := Apply(s, a);
    StepKeepsCells(s, a);
    forall u | u in s'.ops ensures CoherentOp(s'.b, s'.ops[u]) {
      if u == a.t {
        MoverStaysCoherent(s, a);
      } else {
        OthersStayCoherent(s, a, u);
      }
    }
    forall t, u | t in s'.ops && u in s'.ops && t != u && IsWriter(s'.ops[t])
      ensures !IsWriter(s'.ops[u]) && !IsReader(s'.ops[u])
    {
      LocksStayExclusive(s, a, t, u);
    }
  }

  // ---------- Runs ----------

  /** A run from `s`: every action enabled when its turn comes. */
  ghost predicate IsRun(s: State, actions: seq<Action>)
    requires Coherent(s)
    decreases |actions|, 0
  {
    actions == [] ||
    (IsRun(s, actions[..|actions| - 1]) && Enabled(Run(s, actions[..|actions| - 1]), actions[|actions| - 1]))
  }

  ghost function Run(s: State, actions: seq<Action>): (s': State)
    requires Coherent(s) && IsRun(s, actions)
    ensures Coherent(s')
    decreases |actions|, 1
  {
    if actions == [] then s
    else
      var before := Run(s, actions[..|actions| - 1]);
      StepStaysCoherent(before, actions[|actions| - 1]);
      Apply(before, actions[|actions| - 1])
  }

  lemma RunSnoc(s: State, actions: seq<Action>, a: Action)
    requires Coherent(s) && IsRun(s, actions) && Enabled(Run(s, actions), a)
    ensures IsRun(s, actions + [a]) && Run(s, actions + [a]) == Apply(Run(s, actions), a)
  {
    assert (actions + [a])[..|actions|] == actions;
  }

  lemma TwoSteps(s: State, acts: seq<Action>, a: Action, c: Action)
    requires Coherent(s) && IsRun(s, acts) && Enabled(Run(s, acts), a)
    requires Coherent(Apply(Run(s, acts), a)) && Enabled(Apply(Run(s, acts), a), c)
    ensures IsRun(s, acts + [a] + [c])
    ensures Run(s, acts + [a] + [c]) == Apply(Apply(Run(s, acts), a), c)
  {
    RunSnoc(s, acts, a);
    RunSnoc(s, acts + [a], c);
  }

  /** `s'` can be reached from `s` by `actions`. */
  ghost predicate Leads(s: State, actions: seq<Action>, s': State)
    requires Coherent(s)
  {
    IsRun(s, actions) && Run(s, actions) == s'
  }

  lemma OneStep(s: State, a: Action)
    requires Coherent(s) && Enabled(s, a)
    ensures Coherent(Apply(s, a)) && Leads(s, [a], Apply(s, a))
  {
    StepStaysCoherent(s, a);
    RunSnoc(s, [], a);
    assert [] + [a] == [a];
  }

  lemma LeadsOneMore(s: State, a: seq<Action>, s': State, x: Action, s'': State)
    requires Coherent(s) && Coherent(s') && Leads(s, a, s') && Enabled(s', x) && s'' == Apply(s', x)
    ensures Leads(s, a + [x], s'')
  {
    RunSnoc(s, a, x);
  }

  lemma LastOfLeads(s: State, b: seq<Action>, s'': State) returns (s': State)
    requires Coherent(s) && Leads(s, b, s'') && b != []
    ensures Coherent(s') && Leads(s, b[..|b| - 1], s') && Enabled(s', b[|b| - 1]) && s'' == Apply(s', b[|b| - 1])
  {
    s' := Run(s, b[..|b| - 1]);
  }

  lemma Rejoin(a: seq<Action>, b: seq<Action>)
    requires b != []
    ensures a + b[..|b| - 1] + [b[|b| - 1]] == a + b
  {
  }

  lemma {:induction false} LeadsOn(s: State, a: seq<Action>, s': State, b: seq<Action>, s'': State)
    requires Coherent(s) && Coherent(s') && Leads(s, a, s') && Leads(s', b, s'')
    ensures Leads(s, a + b, s'')
  {
    if b == [] {
      assert a + b == a;
    } else {
      var front, x := b[..|b| - 1], b[|b| - 1];
      var before := LastOfLeads(s', b, s'');
      LeadsOn(s, a, s', front, before);
      LeadsOneMore(s, a + front, before, x, s'');
      Rejoin(a, b);
    }
  }

  /** The backend as it starts, over whatever streams exist. */
  function Start(js: Store): State { State(Backend(js, map[], []), map[]) }

  /** Counters never decrease, in any interleaving. */
  lemma {:induction false} CountersNeverDecrease(s: State, actions: seq<Action>, k: nat)
    requires Coherent(s) && IsRun(s, actions) && k < |s.b.cells|
    ensures var b' := Run(s, actions).b;
      && k < |b'.cells| && b'.cells[k].name == s.b.cells[k].name
      && b'.cells[k].enq >= s.b.cells[k].enq
      && b'.cells[k].deq >= s.b.cells[k].deq
      && b'.cells[k].drained >= s.b.cells[k].drained
  {
    if actions != [] {
      var front, a := actions[..|actions| - 1], actions[|actions| - 1];
      CountersNeverDecrease(s, front, k);
      StepKeepsCells(Run(s, front), a);
      StepCounts(Run(s, front), a, k);
    }
  }

  lemma StepCounts(s: State, a: Action, k: nat)
    requires Coherent(s) && Enabled(s, a) && k < |s.b.cells|
    ensures var b' := NextBackend(s, a);
      k < |b'.cells| && b'.cells[k].enq >= s.b.cells[k].enq && b'.cells[k].deq >= s.b.cells[k].deq
      && b'.cells[k].drained >= s.b.cells[k].drained
  {
  }

  /** No stats call ever reports a name twice. */
  lemma StatsNamesAreDistinct(js: Store, actions: seq<Action>, t: nat, i: nat, j: nat)
    requires IsRun(Start(js), actions)
    requires var op := OpOf(Run(Start(js), actions), t); IsReader(op) && i < j < |op.acc|
    ensures var op := OpOf(Run(Start(js), actions), t); op.acc[i].stat.name != op.acc[j].stat.name
  {
    var s := Run(Start(js), actions);
    assert CoherentOp(s.b, s.ops[t]);
  }
}
