/** Accounting for one queue in every interleaving: the system seen from a single queue is a
    small machine, and its counters, its stream and the calls in flight always add up. */
module MemQAccounting {
  import opened JetStream
  import opened NatsBackend
  import opened MemQSystem
  import opened Text

  datatype Option<T> = None | Some(value: T)

  /** One queue: its stream, its current counters, its puts between Publish and the increment,
      its gets between delivery and the increment. */
  datatype QView = QView(stream: Option<Stream>, cell: Option<Cell>, puts: nat, gets: nat)

  function ViewOf(s: State, q: string): QView
    requires Coherent(s)
  {
    QView(if StreamName(q) in s.b.js then Some(s.b.js[StreamName(q)]) else None,
          if q in s.b.queues then Some(s.b.cells[s.b.queues[q]]) else None,
          if q in s.b.queues then |Puts(s.ops, s.b.queues[q])| else 0,
          if q in s.b.queues then |Gets(s.ops, s.b.queues[q])| else 0)
  }

  // ---------- Hypotheses ----------

  /** The names in use stay apart after upper-casing. */
  ghost predicate Distinct(names: set<string>) {
    forall p, q :: p in names && q in names && p != q ==> StreamName(p) != StreamName(q)
  }

  /** A stream that has a queue's stream name carries that queue's subject. */
  ghost predicate Compatible(js: Store, names: set<string>) {
    forall q :: q in names && StreamName(q) in js ==> js[StreamName(q)].subject == Subject(q)
  }

  /** The queue a beginning call is about. */
  function BeginsWith(a: Action): Option<string> {
    match a
    case PutBegin(_, q, _) => Some(q)
    case GetBegin(_, q) => Some(q)
    case DrainBegin(_, q) => Some(q)
    case CreateBegin(_, q, _, _) => Some(q)
    case DeleteBegin(_, q, _) => Some(q)
    case _ => None
  }

  /** Only queues from `names` are used. */
  ghost predicate Uses(actions: seq<Action>, names: set<string>) {
    forall i :: 0 <= i < |actions| ==> BeginsWith(actions[i]).Some? ==> BeginsWith(actions[i]).value in names
  }

  /** Nobody deletes `q`. */
  ghost predicate Spares(actions: seq<Action>, q: string) {
    forall i :: 0 <= i < |actions| ==> !(actions[i].DeleteBegin? && actions[i].q == q)
  }

  predicate HasQueue(op: Op) { HoldsCell(op) || IsWriter(op) }

  /** What the names hypothesis keeps true of the state. */
  ghost predicate Named(s: State, names: set<string>) {
    && Sane(s.b.js) && Compatible(s.b.js, names)
    && s.b.queues.Keys <= names
    && (forall t :: t in s.ops ==> NamedOp(s.ops[t], names))
  }

  /** A call is about a queue from `names`, and a get never reads another queue's stream. */
  ghost predicate NamedOp(op: Op, names: set<string>) {
    && (HasQueue(op) ==> op.q in names)
    && (op.GetSubscribed? ==> forall r :: r in names && op.stream == StreamName(r) ==> r == op.q)
  }

  /** Calls on `q` hold its current cell and read its stream, nobody is deleting it, and a create
      that is about to register it has its stream. */
  ghost predicate Held(s: State, q: string) {
    forall t :: t in s.ops ==> HeldOp(s.b, s.ops[t], q)
  }

  ghost predicate HeldOp(b: Backend, op: Op, q: string) {
    && (HoldsCell(op) && op.q == q ==> q in b.queues && op.cell == b.queues[q])
    && (op.GetSubscribed? && op.q == q ==> op.stream == StreamName(q))
    && (op.DeleteDone? ==> op.q != q)
    && (op.CreateAdded? && op.q == q ==> StreamName(q) in b.js)
  }

  // ---------- Subjects are one-to-one ----------

  lemma SubjectIsInjective(p: string, q: string)
    requires Subject(p) == Subject(q)
    ensures p == q
  {
    assert Subject(p)[5..] == p && Subject(q)[5..] == q;
  }

  lemma AddingStaysSane(js: Store, name: string, subject: string, same: bool, fault: bool)
    requires Sane(js)
    ensures Sane(AfterAdd(js, name, subject, same, fault))
  {
  }

  lemma ReadingStaysSane(js: Store, name: string, durable: string)
    requires Sane(js) && name in js
    ensures Sane(AfterSubscribe(js, name, durable))
    ensures NextIndex(js[name], durable) < |js[name].log| ==> Sane(AfterFetch(js, name, durable))
  {
  }

  lemma WritingStaysSane(js: Store, name: string, body: string)
    requires Sane(js) && name in js
    ensures Sane(AfterPublish(js, name, body)) && Sane(AfterPurge(js, name))
  {
  }

  lemma StepStaysSane(s: State, a: Action)
    requires Coherent(s) && Enabled(s, a) && Sane(s.b.js)
    ensures Sane(NextBackend(s, a).js)
  {
    if a.CreateBegin? {
      AddingStaysSane(s.b.js, StreamName(a.q), Subject(a.q), a.same, a.fault);
    } else if a.Publish? {
      if a.ok {
        WritingStaysSane(s.b.js, a.stream, OpOf(s, a.t).body);
      }
    } else if a.Purge? {
      var q := OpOf(s, a.t).q;
      if StreamName(q) in s.b.js {
        WritingStaysSane(s.b.js, StreamName(q), "");
      }
    } else if a.Subscribe? || a.Fetch? {
      var op := OpOf(s, a.t);
      var n := if a.Subscribe? then StreamFor(op.q, a.how) else op.stream;
      if n in s.b.js {
        ReadingStaysSane(s.b.js, n, Durable(op.q));
      }
    }
  }

  lemma StepStaysCompatible(s: State, a: Action, names: set<string>)
    requires Coherent(s) && Enabled(s, a) && Named(s, names) && Distinct(names)
    requires BeginsWith(a).Some? ==> BeginsWith(a).value in names
    ensures Compatible(NextBackend(s, a).js, names)
  {
  }

  lemma StepStaysNamed(s: State, a: Action, names: set<string>)
    requires Coherent(s) && Enabled(s, a) && Named(s, names) && Distinct(names)
    requires BeginsWith(a).Some? ==> BeginsWith(a).value in names
    ensures Named(Apply(s, a), names)
  {
    StepStaysSane(s, a);
    StepStaysCompatible(s, a, names);
    MoverStaysNamed(s, a, names);
    KeysStayNamed(s, a, names);
  }

  lemma MoverStaysNamed(s: State, a: Action, names: set<string>)
    requires Coherent(s) && Enabled(s, a) && Named(s, names) && Distinct(names)
    requires BeginsWith(a).Some? ==> BeginsWith(a).value in names
    ensures NamedOp(NextOp(s, a), names)
  {
    if NextOp(s, a).GetSubscribed? {
      MoverReadsOwn(s, a, names);
    }
  }

  lemma MoverReadsOwn(s: State, a: Action, names: set<string>)
    requires Coherent(s) && Enabled(s, a) && Named(s, names) && Distinct(names) && NextOp(s, a).GetSubscribed?
    ensures NamedOp(NextOp(s, a), names)
  {
    var op := NextOp(s, a);
    assert NamedOp(s.ops[a.t], names);
    forall r | r in names && op.stream == StreamName(r) ensures r == op.q {
      if a.how.FallsBack? {
        SubjectIsInjective(r, op.q);
      }
    }
  }

  lemma KeysStayNamed(s: State, a: Action, names: set<string>)
    requires Coherent(s) && Enabled(s, a) && Named(s, names)
    ensures NextBackend(s, a).queues.Keys <= names
  {
    StepKeepsCells(s, a);
    if a.CreateEnd? {
      assert NamedOp(s.ops[a.t], names);
    }
  }

  lemma StepStaysHeld(s: State, a: Action, q: string, names: set<string>)
    requires Coherent(s) && Enabled(s, a) && Held(s, q) && Named(s, names) && q in names
    requires !(a.DeleteBegin? && a.q == q)
    requires q in s.b.queues ==> StreamName(q) in s.b.js
    ensures Held(Apply(s, a), q)
  {
    var s' := Apply(s, a);
    forall t | t in s'.ops ensures HeldOp(s'.b, s'.ops[t], q) {
      if t == a.t {
        MoverStaysHeld(s, a, q, names);
      } else {
        WaitingStaysHeld(s, a, q, t);
      }
    }
  }

  /** Nobody but a delete of `q` takes it off the registry, and nobody registers it anew. */
  lemma RegistrationIsKept(s: State, a: Action, q: string)
    requires Coherent(s) && Enabled(s, a) && Held(s, q)
    ensures q in s.b.queues ==> q in NextBackend(s, a).queues && NextBackend(s, a).queues[q] == s.b.queues[q]
  {
    StepKeepsCells(s, a);
    if Registers(a) {
      assert CoherentOp(s.b, s.ops[a.t]) && HeldOp(s.b, s.ops[a.t], q);
    }
  }

  lemma WaitingStaysHeld(s: State, a: Action, q: string, t: nat)
    requires Coherent(s) && Enabled(s, a) && Held(s, q) && t in s.ops && t != a.t
    ensures HeldOp(NextBackend(s, a), s.ops[t], q)
  {
    RegistrationIsKept(s, a, q);
    assert HeldOp(s.b, s.ops[t], q);
    if a.DeleteBegin? {
      assert !IsWriter(s.ops[t]);
    }
  }

  lemma MoverStaysHeld(s: State, a: Action, q: string, names: set<string>)
    requires Coherent(s) && Enabled(s, a) && Held(s, q) && Named(s, names) && q in names
    requires !(a.DeleteBegin? && a.q == q)
    requires q in s.b.queues ==> StreamName(q) in s.b.js
    ensures HeldOp(NextBackend(s, a), NextOp(s, a), q)
  {
    if a.Subscribe? {
      MoverBindsOwn(s, a, q, names);
    } else if IsReader(NextOp(s, a)) {
      ReaderIsHeld(s, a, q);
    } else if BeginsWith(a).Some? {
      BeginnerIsHeld(s, a, q);
    } else {
      ContinuerIsHeld(s, a, q);
    }
  }

  lemma ReaderIsHeld(s: State, a: Action, q: string)
    requires Coherent(s) && Enabled(s, a) && IsReader(NextOp(s, a))
    ensures HeldOp(NextBackend(s, a), NextOp(s, a), q)
  {
    ReaderStaysCoherent(s, a);
  }

  lemma ContinuerIsHeld(s: State, a: Action, q: string)
    requires Coherent(s) && Enabled(s, a) && Held(s, q)
    requires !a.Subscribe? && !IsReader(NextOp(s, a)) && BeginsWith(a).None?
    ensures HeldOp(NextBackend(s, a), NextOp(s, a), q)
  {
    RegistrationIsKept(s, a, q);
    assert HeldOp(s.b, OpOf(s, a.t), q);
    assert HoldsCell(NextOp(s, a)) ==>
        HoldsCell(OpOf(s, a.t)) && NextOp(s, a).q == OpOf(s, a.t).q && NextOp(s, a).cell == OpOf(s, a.t).cell;
  }

  lemma BeginnerIsHeld(s: State, a: Action, q: string)
    requires Coherent(s) && Enabled(s, a) && BeginsWith(a).Some? && !(a.DeleteBegin? && a.q == q)
    ensures HeldOp(NextBackend(s, a), NextOp(s, a), q)
  {
    StreamStepKeepsRegistry(s, a);
  }

  /** While the queue has its stream, falling back finds that stream. */
  lemma MoverBindsOwn(s: State, a: Action, q: string, names: set<string>)
    requires Coherent(s) && Enabled(s, a) && a.Subscribe? && Held(s, q) && Named(s, names) && q in names
    requires q in s.b.queues ==> StreamName(q) in s.b.js
    ensures HeldOp(NextBackend(s, a), NextOp(s, a), q)
  {
    assert HeldOp(s.b, s.ops[a.t], q);
  }

  // ---------- Counting calls in flight ----------

  lemma SizeAfter(before: set<nat>, after: set<nat>, t: nat)
    requires before - {t} == after - {t}
    ensures |after| == |before| - (if t in before then 1 else 0) + (if t in after then 1 else 0)
  {
    var others := before - {t};
    assert before == if t in before then others + {t} else others;
    assert after == if t in after then others + {t} else others;
  }

  lemma PutsAfter(ops: map<nat, Op>, t: nat, op: Op, k: nat)
    ensures var was := t in ops && ops[t].PutPublished? && ops[t].cell == k;
      var now := op.PutPublished? && op.cell == k;
      |Puts(ops[t := op], k)| == |Puts(ops, k)| - (if was then 1 else 0) + (if now then 1 else 0)
  {
    SizeAfter(Puts(ops, k), Puts(ops[t := op], k), t);
  }

  lemma GetsAfter(ops: map<nat, Op>, t: nat, op: Op, k: nat)
    ensures var was := t in ops && ops[t].GetFetched? && ops[t].cell == k;
      var now := op.GetFetched? && op.cell == k;
      |Gets(ops[t := op], k)| == |Gets(ops, k)| - (if was then 1 else 0) + (if now then 1 else 0)
  {
    SizeAfter(Gets(ops, k), Gets(ops[t := op], k), t);
  }

  // ---------- One step, seen from one queue ----------

  /** The queue a step is about. */
  function QueueOf(s: State, a: Action): Option<string> {
    if BeginsWith(a).Some? then BeginsWith(a)
    else if HasQueue(OpOf(s, a.t)) then Some(OpOf(s, a.t).q)
    else None
  }

  /** Steps that neither read nor change a stream, a counter or the registry. */
  predicate Silent(a: Action) {
    a.PutBegin? || a.GetBegin? || a.DrainBegin? || a.DrainInfo?
    || a.StatsBegin? || a.StatsInfo? || a.StatsLoadEnq? || a.StatsLoadDeq? || a.StatsLoadDrained? || a.StatsEnd?
  }

  /** How one step may change the view of a queue. */
  ghost predicate ViewStep(s: State, a: Action, v: QView, v': QView)
    requires Coherent(s) && Enabled(s, a)
  {
    var op := OpOf(s, a.t);
    match a
    case Publish(_, _, ok) =>
      if ok then
        v.stream.Some? && v.cell.Some?
        && v' == v.(stream := Some(v.stream.value.(log := v.stream.value.log + [op.body])), puts := v.puts + 1)
      else v' == v
    case PutCount(_, _) =>
      v.cell.Some? && v.puts > 0
      && v' == v.(cell := Some(v.cell.value.(enq := v.cell.value.enq + 1)), puts := v.puts - 1)
    case Subscribe(_, _) => SameButNewCursor(v, v')
    case Fetch(_, fault) =>
      if CanFetch(s.b.js, op.stream, op.q, fault) then
        v.stream.Some? && v.cell.Some? && MovesCursor(v.stream.value, Durable(op.q), v'.stream)
        && v' == v.(stream := v'.stream, gets := v.gets + 1)
      else v' == v
    case GetCount(_) =>
      v.cell.Some? && v.gets > 0
      && v' == v.(cell := Some(v.cell.value.(deq := v.cell.value.deq + 1)), gets := v.gets - 1)
    case DrainCount(_) =>
      v.cell.Some? && v' == v.(cell := Some(v.cell.value.(drained := v.cell.value.drained + op.msgs)))
    case Purge(_, fault) =>
      if !fault && v.stream.Some? then v' == v.(stream := Some(v.stream.value.(purged := |v.stream.value.log|))) else v' == v
    case CreateBegin(_, q, _, _) => v' == v || (v.stream.None? && v.cell.None? && v' == v.(stream := Some(Stream(Subject(q), [], 0, map[]))))
    case CreateEnd(_) => v.cell.None? && v.stream.Some? && v' == v.(cell := Some(Cell(op.q, 0, 0, 0)))
    case _ => v' == v
  }

  ghost predicate SameButNewCursor(v: QView, v': QView) {
    v' == v ||
    (v.stream.Some? && v'.stream.Some? && v' == v.(stream := v'.stream)
     && exists d :: d !in v.stream.value.cursors
          && v'.stream.value == v.stream.value.(cursors := v.stream.value.cursors[d := 0]))
  }

  ghost predicate MovesCursor(st: Stream, d: string, after: Option<Stream>) {
    exists k: nat :: k < |st.log| && IsNext(st, d, k) && after == Some(st.(cursors := st.cursors[d := k + 1]))
  }

  lemma ViewCountsAfter(s: State, a: Action, q: string)
    requires Coherent(s) && Enabled(s, a) && q in s.b.queues
    ensures var k, op, op' := s.b.queues[q], OpOf(s, a.t), NextOp(s, a);
      && |Puts(Apply(s, a).ops, k)| == |Puts(s.ops, k)|
           - (if op.PutPublished? && op.cell == k then 1 else 0) + (if op'.PutPublished? && op'.cell == k then 1 else 0)
      && |Gets(Apply(s, a).ops, k)| == |Gets(s.ops, k)|
           - (if op.GetFetched? && op.cell == k then 1 else 0) + (if op'.GetFetched? && op'.cell == k then 1 else 0)
  {
    PutsAfter(s.ops, a.t, NextOp(s, a), s.b.queues[q]);
    GetsAfter(s.ops, a.t, NextOp(s, a), s.b.queues[q]);
  }

  /** Steps about other queues leave this queue's stream alone. */
  lemma ForeignStepKeepsStream(s: State, a: Action, q: string, names: set<string>)
    requires Coherent(s) && Enabled(s, a) && Named(s, names) && Distinct(names) && q in names
    requires BeginsWith(a).Some? ==> BeginsWith(a).value in names
    requires QueueOf(s, a) != Some(q)
    ensures SameStream(s.b.js, NextBackend(s, a).js, StreamName(q))
  {
    if a.Publish? {
      ForeignPublish(s, a, q, names);
    } else if a.Subscribe? || a.Fetch? {
      ForeignRead(s, a, q, names);
    } else {
      assert a.t in s.ops ==> NamedOp(s.ops[a.t], names);
    }
  }

  predicate SameStream(js: Store, js': Store, n: string) {
    (n in js <==> n in js') && (n in js ==> js'[n] == js[n])
  }

  lemma ForeignPublish(s: State, a: Action, q: string, names: set<string>)
    requires Coherent(s) && Enabled(s, a) && a.Publish? && Named(s, names) && q in names && QueueOf(s, a) != Some(q)
    ensures SameStream(s.b.js, NextBackend(s, a).js, StreamName(q))
  {
    if a.ok && a.stream == StreamName(q) {
      SubjectIsInjective(OpOf(s, a.t).q, q);
    }
  }

  lemma ForeignRead(s: State, a: Action, q: string, names: set<string>)
    requires Coherent(s) && Enabled(s, a) && (a.Subscribe? || a.Fetch?) && Named(s, names) && Distinct(names) && q in names
    requires QueueOf(s, a) != Some(q)
    ensures SameStream(s.b.js, NextBackend(s, a).js, StreamName(q))
  {
    var op := s.ops[a.t];
    assert NamedOp(op, names);
    if a.Subscribe? && CanSubscribe(s.b.js, op.q, a.how) && StreamFor(op.q, a.how) == StreamName(q) {
      if a.how.FallsBack? {
        SubjectIsInjective(op.q, q);
      }
    }
  }

  lemma ForeignStepKeepsCell(s: State, a: Action, q: string)
    requires Coherent(s) && Enabled(s, a)
    requires QueueOf(s, a) != Some(q)
    ensures var b, b' := s.b, NextBackend(s, a);
      (q in b.queues <==> q in b'.queues)
      && (q in b.queues ==> b'.queues[q] == b.queues[q] && b.queues[q] < |b'.cells| && b'.cells[b.queues[q]] == b.cells[b.queues[q]])
  {
    if Counts(a) {
      CountStepKeepsCells(s, a);
      assert CoherentOp(s.b, s.ops[a.t]);
    } else if Registers(a) {
      assert CoherentOp(s.b, s.ops[a.t]);
    } else {
      StreamStepKeepsRegistry(s, a);
    }
  }

  lemma ForeignStepKeepsCounts(s: State, a: Action, q: string)
    requires Coherent(s) && Enabled(s, a) && q in s.b.queues
    requires QueueOf(s, a) != Some(q)
    ensures |Puts(Apply(s, a).ops, s.b.queues[q])| == |Puts(s.ops, s.b.queues[q])|
    ensures |Gets(Apply(s, a).ops, s.b.queues[q])| == |Gets(s.ops, s.b.queues[q])|
  {
    ViewCountsAfter(s, a, q);
    MoverHoldsOtherCell(s, a, q);
  }

  lemma MoverHoldsOtherCell(s: State, a: Action, q: string)
    requires Coherent(s) && Enabled(s, a) && q in s.b.queues && QueueOf(s, a) != Some(q)
    ensures var op, op' := OpOf(s, a.t), NextOp(s, a);
      && (op.PutPublished? || op.GetFetched? ==> op.cell != s.b.queues[q])
      && (op'.PutPublished? || op'.GetFetched? ==> op'.cell != s.b.queues[q])
  {
    assert a.t in s.ops ==> CoherentOp(s.b, s.ops[a.t]);
  }

  lemma ForeignStep(s: State, a: Action, q: string, names: set<string>)
    requires Coherent(s) && Enabled(s, a) && Named(s, names) && Distinct(names) && q in names
    requires BeginsWith(a).Some? ==> BeginsWith(a).value in names
    requires QueueOf(s, a) != Some(q)
    ensures Coherent(Apply(s, a))
    ensures ViewOf(Apply(s, a), q) == ViewOf(s, q)
  {
    StepStaysCoherent(s, a);
    ForeignStepKeepsStream(s, a, q, names);
    ForeignStepKeepsCell(s, a, q);
    if q in s.b.queues {
      ForeignStepKeepsCounts(s, a, q);
    }
  }

  /** Looking things up changes nothing. */
  lemma SilentStep(s: State, a: Action, q: string)
    requires Coherent(s) && Enabled(s, a) && Silent(a)
    ensures Coherent(Apply(s, a))
    ensures ViewOf(Apply(s, a), q) == ViewOf(s, q)
  {
    StepStaysCoherent(s, a);
    assert NextBackend(s, a) == s.b;
    if q in s.b.queues {
      ViewCountsAfter(s, a, q);
    }
  }

  lemma PutStep(s: State, a: Action, q: string, names: set<string>)
    requires Coherent(s) && Enabled(s, a) && Named(s, names) && Held(s, q)
    requires (a.Publish? || a.PutCount?) && OpOf(s, a.t).q == q && q in names
    requires StreamName(q) in s.b.js || q !in s.b.queues
    ensures Coherent(Apply(s, a))
    ensures ViewStep(s, a, ViewOf(s, q), ViewOf(Apply(s, a), q))
  {
    StepStaysCoherent(s, a);
    ViewCountsAfter(s, a, q);
    if a.PutCount? {
      assert a.t in Puts(s.ops, s.b.queues[q]);
    }
  }

  lemma GetStep(s: State, a: Action, q: string)
    requires Coherent(s) && Enabled(s, a) && Held(s, q)
    requires (a.Subscribe? || a.Fetch? || a.GetCount?) && OpOf(s, a.t).q == q
    requires a.Subscribe? && CanSubscribe(s.b.js, q, a.how) ==> StreamFor(q, a.how) == StreamName(q)
    ensures Coherent(Apply(s, a))
    ensures ViewStep(s, a, ViewOf(s, q), ViewOf(Apply(s, a), q))
  {
    StepStaysCoherent(s, a);
    ViewCountsAfter(s, a, q);
    assert HeldOp(s.b, s.ops[a.t], q);
    if a.Subscribe? {
      SubscribeStep(s, a, q);
    } else if a.Fetch? {
      FetchMovesCursor(s.b.js, OpOf(s, a.t).stream, Durable(q));
    } else {
      assert a.t in Gets(s.ops, s.b.queues[q]);
    }
  }

  lemma FetchMovesCursor(js: Store, n: string, d: string)
    ensures n in js && NextIndex(js[n], d) < |js[n].log| ==> MovesCursor(js[n], d, Some(AfterFetch(js, n, d)[n]))
  {
    if n in js {
      NextIsNext(js[n], d, NextIndex(js[n], d));
    }
  }

  lemma SubscribeStep(s: State, a: Action, q: string)
    requires Coherent(s) && Enabled(s, a) && a.Subscribe? && OpOf(s, a.t).q == q && Coherent(Apply(s, a))
    requires CanSubscribe(s.b.js, q, a.how) ==> StreamFor(q, a.how) == StreamName(q)
    requires q in s.b.queues ==>
      |Puts(Apply(s, a).ops, s.b.queues[q])| == |Puts(s.ops, s.b.queues[q])|
      && |Gets(Apply(s, a).ops, s.b.queues[q])| == |Gets(s.ops, s.b.queues[q])|
    ensures SameButNewCursor(ViewOf(s, q), ViewOf(Apply(s, a), q))
  {
    var n := StreamName(q);
    if CanSubscribe(s.b.js, q, a.how) && Durable(q) !in s.b.js[n].cursors {
      assert Apply(s, a).b.js[n] == s.b.js[n].(cursors := s.b.js[n].cursors[Durable(q) := 0]);
    }
  }

  lemma DrainStep(s: State, a: Action, q: string)
    requires Coherent(s) && Enabled(s, a) && Held(s, q)
    requires (a.DrainCount? || a.Purge?) && OpOf(s, a.t).q == q
    ensures Coherent(Apply(s, a))
    ensures ViewStep(s, a, ViewOf(s, q), ViewOf(Apply(s, a), q))
  {
    StepStaysCoherent(s, a);
    ViewCountsAfter(s, a, q);
  }

  lemma NoCallsYet(s: State, q: string)
    requires Coherent(s) && Held(s, q) && q !in s.b.queues
    ensures Puts(s.ops, |s.b.cells|) == {} && Gets(s.ops, |s.b.cells|) == {}
  {
    forall t | t in s.ops && HoldsCell(s.ops[t]) ensures s.ops[t].cell != |s.b.cells| {
      assert CoherentOp(s.b, s.ops[t]);
    }
  }

  lemma CreateStep(s: State, a: Action, q: string)
    requires Coherent(s) && Enabled(s, a) && Held(s, q)
    requires (a.CreateBegin? && a.q == q) || (a.CreateEnd? && OpOf(s, a.t).q == q)
    ensures Coherent(Apply(s, a))
    ensures ViewStep(s, a, ViewOf(s, q), ViewOf(Apply(s, a), q))
  {
    StepStaysCoherent(s, a);
    if q in s.b.queues {
      ViewCountsAfter(s, a, q);
    }
    if a.CreateEnd? {
      assert CoherentOp(s.b, s.ops[a.t]);
      NoCallsYet(s, q);
      PutsAfter(s.ops, a.t, Idle, |s.b.cells|);
      GetsAfter(s.ops, a.t, Idle, |s.b.cells|);
    }
  }

  /** Seen from a queue nobody deletes, every step of the system is one of a few moves. */
  lemma {:induction false} EveryStepIsAViewStep(s: State, a: Action, q: string, names: set<string>)
    requires Coherent(s) && Enabled(s, a) && Named(s, names) && Distinct(names) && Held(s, q) && q in names
    requires BeginsWith(a).Some? ==> BeginsWith(a).value in names
    requires !(a.DeleteBegin? && a.q == q)
    requires q in s.b.queues ==> StreamName(q) in s.b.js
    ensures Coherent(Apply(s, a))
    ensures var v, v' := ViewOf(s, q), ViewOf(Apply(s, a), q);
      v' == v || (QueueOf(s, a) == Some(q) && ViewStep(s, a, v, v'))
  {
    if Silent(a) {
      SilentStep(s, a, q);
    } else if QueueOf(s, a) != Some(q) {
      ForeignStep(s, a, q, names);
    } else if a.Publish? || a.PutCount? {
      PutStep(s, a, q, names);
    } else if a.Subscribe? || a.Fetch? || a.GetCount? {
      assert HeldOp(s.b, s.ops[a.t], q);
      GetStep(s, a, q);
    } else if a.DrainCount? || a.Purge? {
      DrainStep(s, a, q);
    } else {
      CreateStep(s, a, q);
    }
  }

  // ---------- The invariant ----------

  /** What was in a queue's stream before the run. */
  function Base(js: Store, q: string): nat {
    if StreamName(q) in js then |js[StreamName(q)].log| else 0
  }

  /** Everything ever stored was there before, or is counted, or is about to be counted; nothing
      is counted as delivered that the queue's cursor has not passed. */
  ghost predicate Balanced(v: QView, base: nat, q: string) {
    && (v.cell.None? ==> v.puts == 0 && v.gets == 0)
    && (v.cell.Some? ==> v.stream.Some?)
    && (v.stream.None? ==> base == 0)
    && (v.stream.Some? ==>
          && SaneStream(v.stream.value)
          && |v.stream.value.log| == base + (if v.cell.Some? then v.cell.value.enq + v.puts else 0))
    && (v.cell.Some? ==> v.cell.value.deq + v.gets <= Cursor(v.stream.value, Durable(q)))
  }

  lemma ViewStepStaysBalanced(s: State, a: Action, v: QView, v': QView, base: nat, q: string)
    requires Coherent(s) && Enabled(s, a) && ViewStep(s, a, v, v')
    requires Balanced(v, base, q) && OpIsAbout(s, a, q)
    ensures Balanced(v', base, q)
  {
  }

  predicate OpIsAbout(s: State, a: Action, q: string) {
    HoldsCell(OpOf(s, a.t)) && (a.Subscribe? || a.Fetch?) ==> OpOf(s, a.t).q == q
  }

  /** Everything the accounting needs of a state. */
  ghost predicate Accounted(s: State, q: string, names: set<string>, base: nat) {
    && Coherent(s) && Named(s, names) && Held(s, q) && Balanced(ViewOf(s, q), base, q)
  }

  lemma StepStaysAccounted(s: State, a: Action, q: string, names: set<string>, base: nat)
    requires Accounted(s, q, names, base) && Enabled(s, a) && Distinct(names) && q in names
    requires BeginsWith(a).Some? ==> BeginsWith(a).value in names
    requires !(a.DeleteBegin? && a.q == q)
    ensures Accounted(Apply(s, a), q, names, base)
  {
    EveryStepIsAViewStep(s, a, q, names);
    StepStaysNamed(s, a, names);
    StepStaysHeld(s, a, q, names);
    if ViewOf(Apply(s, a), q) != ViewOf(s, q) {
      ViewStepStaysBalanced(s, a, ViewOf(s, q), ViewOf(Apply(s, a), q), base, q);
    }
  }

  /** The setting of the accounting theorems: a store whose queue streams carry their own
      subjects, names that stay apart, and a queue that nobody deletes during the run. */
  ghost predicate Setting(js: Store, actions: seq<Action>, names: set<string>, q: string) {
    && Sane(js) && Compatible(js, names) && Distinct(names)
    && IsRun(Start(js), actions) && Uses(actions, names) && Spares(actions, q) && q in names
  }

  /** A setting without its last step. */
  lemma SettingPrefix(js: Store, actions: seq<Action>, names: set<string>, q: string)
    requires Setting(js, actions, names, q) && actions != []
    ensures var front, a := actions[..|actions| - 1], actions[|actions| - 1];
      && Setting(js, front, names, q)
      && Enabled(Run(Start(js), front), a)
      && Run(Start(js), actions) == Apply(Run(Start(js), front), a)
      && (BeginsWith(a).Some? ==> BeginsWith(a).value in names)
      && !(a.DeleteBegin? && a.q == q)
  {
    var front := actions[..|actions| - 1];
    assert forall i :: 0 <= i < |front| ==> front[i] == actions[i];
  }

  lemma {:induction false} RunIsAccounted(js: Store, actions: seq<Action>, names: set<string>, q: string)
    requires Setting(js, actions, names, q)
    ensures Accounted(Run(Start(js), actions), q, names, Base(js, q))
  {
    if actions != [] {
      var front, a := actions[..|actions| - 1], actions[|actions| - 1];
      SettingPrefix(js, actions, names, q);
      RunIsAccounted(js, front, names, q);
      StepStaysAccounted(Run(Start(js), front), a, q, names, Base(js, q));
    }
  }

  /** In every interleaving of puts, gets, drains, stats and other queues' calls: the messages in
      a queue's stream, purged or not, are those that were there, plus the ones counted as
      enqueued, plus the puts between Publish and the increment. Reading removes nothing. */
  lemma {:induction false} StoredIsCounted(js: Store, actions: seq<Action>, names: set<string>, q: string)
    requires Setting(js, actions, names, q)
    requires q in Run(Start(js), actions).b.queues
    ensures var s := Run(Start(js), actions);
      && StreamName(q) in s.b.js
      && var st, k := s.b.js[StreamName(q)], s.b.queues[q];
         Depth(st) + st.purged == Base(js, q) + s.b.cells[k].enq + |Puts(s.ops, k)|
  {
    RunIsAccounted(js, actions, names, q);
  }

  /** Likewise for reading: what is counted as dequeued, plus the gets between delivery and the
      increment, never exceeds what was there plus what was stored. */
  lemma {:induction false} DequeuedIsStored(js: Store, actions: seq<Action>, names: set<string>, q: string)
    requires Setting(js, actions, names, q)
    requires q in Run(Start(js), actions).b.queues
    ensures var s := Run(Start(js), actions);
      var k := s.b.queues[q];
      s.b.cells[k].deq + |Gets(s.ops, k)| <= Base(js, q) + s.b.cells[k].enq + |Puts(s.ops, k)|
  {
    RunIsAccounted(js, actions, names, q);
    var s := Run(Start(js), actions);
    var st := s.b.js[StreamName(q)];
    assert SaneStream(st);
    assert Cursor(st, Durable(q)) <= |st.log|;
  }

  // ---------- What stats report ----------

  /** The claims of one finished entry. */
  predicate Truthful(e: Seen, base: nat) {
    && e.stat.depth <= base + e.stat.enqueued + e.putsAtDepth
    && e.deqAtEnq <= base + e.stat.enqueued + e.putsAtEnq
    && e.deqAtEnq <= e.stat.dequeued
  }

  /** The claims of a stats call, entry by entry and for the one being read. */
  ghost predicate TruthfulOp(b: Backend, op: Op, q: string, base: nat) {
    IsReader(op) ==>
      && (forall i :: 0 <= i < |op.acc| && op.acc[i].stat.name == q ==> Truthful(op.acc[i], base))
      && (!op.StatsNext? && op.q == q && op.cell < |b.cells| ==>
            match op
            case StatsDepth(_, _, _, k, depth, puts) => depth <= base + b.cells[k].enq + puts
            case StatsEnq(_, _, _, k, depth, puts, enq, putsAtEnq, deqAtEnq) =>
              depth <= base + enq + puts && deqAtEnq <= base + enq + putsAtEnq && deqAtEnq <= b.cells[k].deq
            case StatsDeq(_, _, _, _, depth, puts, enq, putsAtEnq, deqAtEnq, deq) =>
              depth <= base + enq + puts && deqAtEnq <= base + enq + putsAtEnq && deqAtEnq <= deq
            case _ => true)
  }

  ghost predicate StatsTruthful(s: State, q: string, base: nat) {
    forall t :: t in s.ops ==> TruthfulOp(s.b, s.ops[t], q, base)
  }

  lemma WaitingStaysTruthful(s: State, a: Action, u: nat, q: string, base: nat)
    requires Coherent(s) && Enabled(s, a) && u in s.ops && TruthfulOp(s.b, s.ops[u], q, base)
    ensures TruthfulOp(NextBackend(s, a), s.ops[u], q, base)
  {
    var op := s.ops[u];
    assert CoherentOp(s.b, op);
    StepKeepsCells(s, a);
    if IsReader(op) && !op.StatsNext? {
      StepCounts(s, a, op.cell);
    }
  }

  /** What the two reads of a stats call find about `q`. */
  lemma ReadsAreBounded(s: State, q: string, names: set<string>, base: nat)
    requires Accounted(s, q, names, base) && q in s.b.queues
    ensures StreamName(q) in s.b.js
    ensures var c, puts := s.b.cells[s.b.queues[q]], |Puts(s.ops, s.b.queues[q])|;
      Depth(s.b.js[StreamName(q)]) <= base + c.enq + puts && c.deq <= base + c.enq + puts
  {
    var st := ViewOf(s, q).stream.value;
    assert Cursor(st, Durable(q)) <= |st.log|;
  }

  lemma InfoIsTruthful(s: State, a: Action, q: string, names: set<string>, base: nat)
    requires Accounted(s, q, names, base) && Enabled(s, a) && a.StatsInfo?
    requires TruthfulOp(s.b, s.ops[a.t], q, base)
    ensures TruthfulOp(s.b, NextOp(s, a), q, base)
  {
    if a.q == q && q in s.b.queues {
      ReadsAreBounded(s, q, names, base);
    }
  }

  lemma LoadIsTruthful(s: State, a: Action, q: string, names: set<string>, base: nat)
    requires Accounted(s, q, names, base) && Enabled(s, a)
    requires a.StatsLoadEnq? || a.StatsLoadDeq? || a.StatsLoadDrained?
    requires TruthfulOp(s.b, s.ops[a.t], q, base)
    ensures TruthfulOp(s.b, NextOp(s, a), q, base)
  {
    assert CoherentOp(s.b, s.ops[a.t]);
    if s.ops[a.t].q == q {
      ReadsAreBounded(s, q, names, base);
    }
  }

  lemma MoverStaysTruthful(s: State, a: Action, q: string, names: set<string>, base: nat)
    requires Accounted(s, q, names, base) && Enabled(s, a)
    requires StatsTruthful(s, q, base)
    ensures TruthfulOp(NextBackend(s, a), NextOp(s, a), q, base)
  {
    if a.StatsInfo? {
      InfoIsTruthful(s, a, q, names, base);
    } else if a.StatsLoadEnq? || a.StatsLoadDeq? || a.StatsLoadDrained? {
      LoadIsTruthful(s, a, q, names, base);
    } else {
      OtherMoverIsTruthful(s, a, q, base);
    }
  }

  lemma OtherMoverIsTruthful(s: State, a: Action, q: string, base: nat)
    requires Coherent(s) && Enabled(s, a)
    requires !a.StatsInfo? && !a.StatsLoadEnq? && !a.StatsLoadDeq? && !a.StatsLoadDrained?
    ensures TruthfulOp(NextBackend(s, a), NextOp(s, a), q, base)
  {
    assert IsReader(NextOp(s, a)) ==> a.StatsBegin?;
  }

  lemma {:induction false} RunIsTruthful(js: Store, actions: seq<Action>, names: set<string>, q: string)
    requires Setting(js, actions, names, q)
    ensures StatsTruthful(Run(Start(js), actions), q, Base(js, q))
  {
    if actions != [] {
      var front, a := actions[..|actions| - 1], actions[|actions| - 1];
      SettingPrefix(js, actions, names, q);
      RunIsTruthful(js, front, names, q);
      RunIsAccounted(js, front, names, q);
      var s := Run(Start(js), front);
      forall u | u in Apply(s, a).ops ensures TruthfulOp(Apply(s, a).b, Apply(s, a).ops[u], q, Base(js, q)) {
        if u == a.t {
          MoverStaysTruthful(s, a, q, names, Base(js, q));
        } else {
          WaitingStaysTruthful(s, a, u, q, Base(js, q));
        }
      }
    }
  }

  /** Every entry any stats call reports for a queue that nobody deletes: its depth is at most
      what was there, plus what it reports enqueued, plus the puts in flight when the depth was
      read; what it reports dequeued is at most what was there, plus enqueued, plus the puts in
      flight when that was read, plus what was dequeued between the two loads. */
  lemma {:induction false} StatsEntriesAreTruthful(js: Store, actions: seq<Action>, names: set<string>, q: string, t: nat, i: nat)
    requires Setting(js, actions, names, q)
    requires var op := OpOf(Run(Start(js), actions), t);
      IsReader(op) && i < |op.acc| && op.acc[i].stat.name == q
    ensures var e := OpOf(Run(Start(js), actions), t).acc[i];
      && e.stat.depth <= Base(js, q) + e.stat.enqueued + e.putsAtDepth
      && e.stat.dequeued <= Base(js, q) + e.stat.enqueued + e.putsAtEnq + (e.stat.dequeued - e.deqAtEnq)
      && e.stat.dequeued >= e.deqAtEnq
  {
    RunIsTruthful(js, actions, names, q);
    assert TruthfulOp(Run(Start(js), actions).b, Run(Start(js), actions).ops[t], q, Base(js, q));
  }
}
