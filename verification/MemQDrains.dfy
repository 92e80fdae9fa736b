/** What drains count. A drain reads the depth, adds it to the counter, and purges, in three
    separate steps, of which the first and the last may fail; this module says exactly when the
    counter tells the truth. */
module MemQDrains {
  import opened JetStream
  import opened NatsBackend
  import opened MemQSystem
  import opened MemQAccounting

  /** A drain of `q` between its depth read and its purge. */
  predicate InWindow(op: Op, q: string) {
    (op.DrainRead? || op.DrainReady?) && op.q == q
  }

  ghost predicate SomeWindow(ops: map<nat, Op>, q: string) {
    exists t :: t in ops && InWindow(ops[t], q)
  }

  /** Drains of `q` take turns. Puts may come at any time, and any call may fail. */
  predicate TakesTurns(s: State, a: Action, q: string) {
    var op := OpOf(s, a.t);
    a.DrainInfo? && op.DrainFound? && op.q == q ==> forall t :: t in s.ops ==> !InWindow(s.ops[t], q)
  }

  ghost predicate DrainsTakeTurns(js: Store, actions: seq<Action>, q: string)
    requires IsRun(Start(js), actions)
  {
    actions == [] ||
    (DrainsTakeTurns(js, actions[..|actions| - 1], q)
     && TakesTurns(Run(Start(js), actions[..|actions| - 1]), actions[|actions| - 1], q))
  }

  // ---------- What goes wrong, counted over a run ----------

  /** Does this step store a message of `q`? */
  predicate Stores(s: State, a: Action, q: string) {
    a.Publish? && a.ok && OpOf(s, a.t).PutFound? && OpOf(s, a.t).q == q
  }

  /** The three steps of a drain of `q`. */
  predicate DrainsQueue(s: State, a: Action, q: string) {
    (a.DrainInfo? || a.DrainCount? || a.Purge?) && HasQueue(OpOf(s, a.t)) && OpOf(s, a.t).q == q
  }

  /** Messages purged that no drain had counted; messages counted by drains that then failed to
      purge them; and messages the open drain has not counted and is about to purge. */
  datatype Tally = Tally(missed: nat, excess: nat, pending: nat)

  function Works(js: Store, q: string, fault: bool): bool {
    !fault && StreamName(q) in js
  }

  function DepthOf(js: Store, q: string): nat {
    if StreamName(q) in js then Depth(js[StreamName(q)]) else 0
  }

  /** A failed depth read leaves everything stored uncounted; a message stored while a drain is
      open is uncounted, too; the purge makes them missed, unless it fails. */
  ghost function Tallied(s: State, a: Action, q: string, y: Tally): Tally
    requires Coherent(s) && Enabled(s, a)
  {
    if Stores(s, a, q) then (if SomeWindow(s.ops, q) then y.(pending := y.pending + 1) else y)
    else if !DrainsQueue(s, a, q) then y
    else
      match a
      case DrainInfo(_, fault) => y.(pending := if Works(s.b.js, q, fault) then 0 else DepthOf(s.b.js, q))
      case Purge(_, fault) =>
        if Works(s.b.js, q, fault) then Tally(y.missed + y.pending, y.excess, 0)
        else Tally(y.missed, y.excess + OpOf(s, a.t).counted, 0)
      case _ => y
  }

  ghost function TallyOf(js: Store, actions: seq<Action>, q: string): Tally
    requires IsRun(Start(js), actions)
  {
    if actions == [] then Tally(0, 0, 0)
    else Tallied(Run(Start(js), actions[..|actions| - 1]), actions[|actions| - 1], q, TallyOf(js, actions[..|actions| - 1], q))
  }

  function PurgedBefore(js: Store, q: string): nat {
    if StreamName(q) in js then js[StreamName(q)].purged else 0
  }

  // ---------- The books of one queue ----------

  /** What was purged, plus what was counted and not purged, is what was counted, plus what was
      purged uncounted. In an open drain, the rest of the log is what it counts and what is
      pending. */
  ghost predicate Books(v: QView, ops: map<nat, Op>, q: string, before: nat, y: Tally) {
    && (v.stream.None? ==> before == 0)
    && (v.cell.None? ==> y == Tally(0, 0, 0) && (v.stream.Some? ==> v.stream.value.purged == before))
    && (v.cell.Some? && v.stream.Some? ==>
          && (forall t, u :: t in ops && u in ops && InWindow(ops[t], q) && InWindow(ops[u], q) ==> t == u)
          && (forall t :: t in ops && InWindow(ops[t], q) ==> WindowBooks(v, ops[t], before, y))
          && (!SomeWindow(ops, q) ==> y.pending == 0 && ClosedBooks(v, before, y)))
  }

  ghost predicate ClosedBooks(v: QView, before: nat, y: Tally)
    requires v.cell.Some? && v.stream.Some?
  {
    v.stream.value.purged + y.excess == before + v.cell.value.drained + y.missed
  }

  ghost predicate WindowBooks(v: QView, op: Op, before: nat, y: Tally)
    requires v.cell.Some? && v.stream.Some?
  {
    && (op.DrainRead? ==>
          ClosedBooks(v, before, y) && |v.stream.value.log| == v.stream.value.purged + op.msgs + y.pending)
    && (op.DrainReady? ==>
          && v.stream.value.purged + y.excess + op.counted == before + v.cell.value.drained + y.missed
          && |v.stream.value.log| == v.stream.value.purged + op.counted + y.pending)
  }

  ghost predicate DrainBooks(s: State, q: string, before: nat, y: Tally)
    requires Coherent(s)
  {
    Books(ViewOf(s, q), s.ops, q, before, y)
  }

  lemma SameWindows(s: State, a: Action, q: string)
    requires Coherent(s) && Enabled(s, a)
    requires !InWindow(OpOf(s, a.t), q) && !InWindow(NextOp(s, a), q)
    ensures forall t :: (t in s.ops && InWindow(s.ops[t], q)) <==> (t in Apply(s, a).ops && InWindow(Apply(s, a).ops[t], q))
    ensures forall t :: t in s.ops && InWindow(s.ops[t], q) ==> Apply(s, a).ops[t] == s.ops[t]
    ensures SomeWindow(Apply(s, a).ops, q) <==> SomeWindow(s.ops, q)
  {
  }

  lemma MoverStaysOutside(s: State, a: Action, q: string)
    requires Coherent(s) && Enabled(s, a) && !DrainsQueue(s, a, q)
    ensures !InWindow(OpOf(s, a.t), q) && !InWindow(NextOp(s, a), q)
  {
  }

  lemma NoWindowWithoutCell(s: State, q: string)
    requires Coherent(s) && Held(s, q) && q !in s.b.queues
    ensures !SomeWindow(s.ops, q)
  {
  }

  /** What a step outside drains of `q` does to the numbers the books are about. */
  ghost predicate NumbersMove(v: QView, v': QView, stored: nat) {
    && (v.stream.Some? ==> v'.stream.Some? && v'.stream.value.purged == v.stream.value.purged)
    && (v.stream.None? && v'.stream.Some? ==> v'.stream.value.purged == 0)
    && (v.cell.Some? ==>
          && v.stream.Some? && v'.cell.Some? && v'.cell.value.drained == v.cell.value.drained
          && |v'.stream.value.log| == |v.stream.value.log| + stored)
    && (v.cell.None? && v'.cell.Some? ==> v.stream.Some? && v'.cell.value.drained == 0)
  }

  lemma OtherStepNumbers(s: State, a: Action, q: string, names: set<string>, base: nat)
    requires Accounted(s, q, names, base) && Enabled(s, a) && Distinct(names) && q in names
    requires BeginsWith(a).Some? ==> BeginsWith(a).value in names
    requires !(a.DeleteBegin? && a.q == q) && !DrainsQueue(s, a, q)
    ensures Coherent(Apply(s, a))
    ensures NumbersMove(ViewOf(s, q), ViewOf(Apply(s, a), q), if Stores(s, a, q) then 1 else 0)
  {
    EveryStepIsAViewStep(s, a, q, names);
    if Stores(s, a, q) {
      PutStep(s, a, q, names);
    } else if QueueOf(s, a) != Some(q) {
      ForeignStep(s, a, q, names);
    } else {
      ViewStepNumbers(s, a, ViewOf(s, q), ViewOf(Apply(s, a), q), q);
    }
  }

  lemma ViewStepNumbers(s: State, a: Action, v: QView, v': QView, q: string)
    requires Coherent(s) && Enabled(s, a) && (v' == v || ViewStep(s, a, v, v'))
    requires !Stores(s, a, q) && !DrainsQueue(s, a, q) && QueueOf(s, a) == Some(q)
    requires v.cell.Some? ==> v.stream.Some?
    ensures NumbersMove(v, v', 0)
  {
  }

  lemma UnregisteredKeepsBooks(s: State, a: Action, q: string, names: set<string>, base: nat, before: nat, y: Tally)
    requires Accounted(s, q, names, base) && Enabled(s, a) && DrainBooks(s, q, before, y)
    requires Distinct(names) && q in names && q !in s.b.queues
    requires BeginsWith(a).Some? ==> BeginsWith(a).value in names
    requires !(a.DeleteBegin? && a.q == q) && !DrainsQueue(s, a, q)
    ensures Coherent(Apply(s, a))
    ensures DrainBooks(Apply(s, a), q, before, y)
  {
    OtherStepNumbers(s, a, q, names, base);
    NoWindowWithoutCell(s, q);
    MoverStaysOutside(s, a, q);
    SameWindows(s, a, q);
    assert !SomeWindow(Apply(s, a).ops, q);
    NoWindowBooks(ViewOf(s, q), ViewOf(Apply(s, a), q), s.ops, Apply(s, a).ops, q, before, y);
  }

  /** The books of a queue that is not registered (yet), or is registered by this step. */
  lemma NoWindowBooks(v: QView, v': QView, ops: map<nat, Op>, ops': map<nat, Op>, q: string, before: nat, y: Tally)
    requires Books(v, ops, q, before, y) && v.cell.None? && !SomeWindow(ops', q)
    requires v.stream.Some? ==> v'.stream.Some? && v'.stream.value.purged == v.stream.value.purged
    requires v.stream.None? && v'.stream.Some? ==> v'.stream.value.purged == 0
    requires v'.cell.Some? ==> v.stream.Some? && v'.cell.value.drained == 0
    ensures Books(v', ops', q, before, y)
  {
    assert forall t :: t in ops' ==> !InWindow(ops'[t], q);
  }

  lemma RegisteredKeepsBooks(s: State, a: Action, q: string, names: set<string>, base: nat, before: nat, y: Tally, y': Tally)
    requires Accounted(s, q, names, base) && Enabled(s, a) && DrainBooks(s, q, before, y)
    requires Distinct(names) && q in names && q in s.b.queues
    requires BeginsWith(a).Some? ==> BeginsWith(a).value in names
    requires !(a.DeleteBegin? && a.q == q) && !DrainsQueue(s, a, q)
    requires y' == Tallied(s, a, q, y)
    ensures Coherent(Apply(s, a))
    ensures DrainBooks(Apply(s, a), q, before, y')
  {
    OtherStepNumbers(s, a, q, names, base);
    MoverStaysOutside(s, a, q);
    SameWindows(s, a, q);
    SameWindowsSameBooks(ViewOf(s, q), ViewOf(Apply(s, a), q), s.ops, Apply(s, a).ops, q, before, y, y');
  }

  lemma SameWindowsSameBooks(v: QView, v': QView, ops: map<nat, Op>, ops': map<nat, Op>, q: string,
                             before: nat, y: Tally, y': Tally)
    requires Books(v, ops, q, before, y)
    requires v.cell.Some? && v.stream.Some? && v'.cell.Some? && v'.stream.Some?
    requires v'.stream.value.purged == v.stream.value.purged && v'.cell.value.drained == v.cell.value.drained
    requires forall t :: (t in ops && InWindow(ops[t], q)) <==> (t in ops' && InWindow(ops'[t], q))
    requires forall t :: t in ops && InWindow(ops[t], q) ==> ops'[t] == ops[t]
    requires SomeWindow(ops', q) <==> SomeWindow(ops, q)
    requires y' == y.(pending := y'.pending)
    requires if SomeWindow(ops, q) then |v'.stream.value.log| - |v.stream.value.log| == y'.pending - y.pending else y' == y
    ensures Books(v', ops', q, before, y')
  {
    forall t | t in ops' && InWindow(ops'[t], q) ensures WindowBooks(v', ops'[t], before, y') {
      assert WindowBooks(v, ops[t], before, y);
    }
  }

  /** A step outside drains of `q` keeps the books, with a message that slips in pending. */
  lemma OtherStepKeepsBooks(s: State, a: Action, q: string, names: set<string>, base: nat, before: nat, y: Tally, y': Tally)
    requires Accounted(s, q, names, base) && Enabled(s, a) && DrainBooks(s, q, before, y)
    requires Distinct(names) && q in names
    requires BeginsWith(a).Some? ==> BeginsWith(a).value in names
    requires !(a.DeleteBegin? && a.q == q) && !DrainsQueue(s, a, q)
    requires y' == Tallied(s, a, q, y)
    ensures Coherent(Apply(s, a))
    ensures DrainBooks(Apply(s, a), q, before, y')
  {
    if q in s.b.queues {
      RegisteredKeepsBooks(s, a, q, names, base, before, y, y');
    } else {
      NoWindowWithoutCell(s, q);
      UnregisteredKeepsBooks(s, a, q, names, base, before, y);
    }
  }

  lemma InfoKeepsBooks(s: State, a: Action, q: string, names: set<string>, base: nat, before: nat, y: Tally, y': Tally)
    requires Accounted(s, q, names, base) && Enabled(s, a) && DrainBooks(s, q, before, y)
    requires a.DrainInfo? && OpOf(s, a.t).q == q && TakesTurns(s, a, q)
    requires y' == Tallied(s, a, q, y)
    ensures Coherent(Apply(s, a))
    ensures DrainBooks(Apply(s, a), q, before, y')
  {
    SilentStep(s, a, q);
    assert HeldOp(s.b, s.ops[a.t], q);
    var v := ViewOf(s, q);
    assert SaneStream(v.stream.value);
    assert !SomeWindow(s.ops, q);
    WindowOpens(v, s.ops, a.t, NextOp(s, a), q, before, y, y');
  }

  lemma WindowOpens(v: QView, ops: map<nat, Op>, t: nat, op: Op, q: string, before: nat, y: Tally, y': Tally)
    requires Books(v, ops, q, before, y) && v.cell.Some? && v.stream.Some? && SaneStream(v.stream.value)
    requires !SomeWindow(ops, q) && y' == y.(pending := y'.pending)
    requires op.DrainRead? || op.DrainReady?
    requires if op.DrainRead? then op == DrainRead(q, op.cell, Depth(v.stream.value)) && y'.pending == 0 else op == DrainReady(q, op.cell, 0) && y'.pending == Depth(v.stream.value)
    ensures Books(v, ops[t := op], q, before, y')
  {
    assert InWindow(ops[t := op][t], q);
    assert forall u :: u in ops ==> !InWindow(ops[u], q);
  }

  /** The books across the two later steps of the one drain that is in its window. */
  lemma WindowMovesOn(v: QView, v': QView, ops: map<nat, Op>, t: nat, op: Op, q: string, before: nat, y: Tally, y': Tally)
    requires Books(v, ops, q, before, y) && v.cell.Some? && v.stream.Some?
    requires v'.cell.Some? && v'.stream.Some?
    requires t in ops && InWindow(ops[t], q)
    requires InWindow(op, q) ==> WindowBooks(v', op, before, y')
    requires !InWindow(op, q) ==> y'.pending == 0 && ClosedBooks(v', before, y')
    ensures Books(v', ops[t := op], q, before, y')
  {
    if InWindow(op, q) {
      assert InWindow(ops[t := op][t], q);
    }
  }

  lemma CountKeepsBooks(s: State, a: Action, q: string, names: set<string>, base: nat, before: nat, y: Tally)
    requires Accounted(s, q, names, base) && Enabled(s, a) && DrainBooks(s, q, before, y)
    requires a.DrainCount? && OpOf(s, a.t).q == q
    ensures Coherent(Apply(s, a))
    ensures DrainBooks(Apply(s, a), q, before, y)
  {
    DrainStep(s, a, q);
    assert HeldOp(s.b, s.ops[a.t], q);
    var v, v' := ViewOf(s, q), ViewOf(Apply(s, a), q);
    assert WindowBooks(v, s.ops[a.t], before, y);
    WindowMovesOn(v, v', s.ops, a.t, NextOp(s, a), q, before, y, y);
  }

  lemma PurgeKeepsBooks(s: State, a: Action, q: string, names: set<string>, base: nat, before: nat, y: Tally, y': Tally)
    requires Accounted(s, q, names, base) && Enabled(s, a) && DrainBooks(s, q, before, y)
    requires a.Purge? && OpOf(s, a.t).q == q && y' == Tallied(s, a, q, y)
    ensures Coherent(Apply(s, a))
    ensures DrainBooks(Apply(s, a), q, before, y')
  {
    DrainStep(s, a, q);
    assert HeldOp(s.b, s.ops[a.t], q);
    var v, v' := ViewOf(s, q), ViewOf(Apply(s, a), q);
    assert WindowBooks(v, s.ops[a.t], before, y);
    WindowMovesOn(v, v', s.ops, a.t, Idle, q, before, y, y');
  }

  lemma StepKeepsBooks(s: State, a: Action, q: string, names: set<string>, base: nat, before: nat, y: Tally, y': Tally)
    requires Accounted(s, q, names, base) && Enabled(s, a) && DrainBooks(s, q, before, y)
    requires Distinct(names) && q in names
    requires BeginsWith(a).Some? ==> BeginsWith(a).value in names
    requires !(a.DeleteBegin? && a.q == q) && TakesTurns(s, a, q)
    requires y' == Tallied(s, a, q, y)
    ensures Coherent(Apply(s, a))
    ensures DrainBooks(Apply(s, a), q, before, y')
  {
    if !DrainsQueue(s, a, q) {
      OtherStepKeepsBooks(s, a, q, names, base, before, y, y');
    } else if a.DrainInfo? {
      InfoKeepsBooks(s, a, q, names, base, before, y, y');
    } else if a.DrainCount? {
      CountKeepsBooks(s, a, q, names, base, before, y);
    } else {
      PurgeKeepsBooks(s, a, q, names, base, before, y, y');
    }
  }

  lemma BooksMoveOn(s: State, a: Action, s': State, q: string, names: set<string>, base: nat, before: nat, y: Tally, y': Tally)
    requires Accounted(s, q, names, base) && Enabled(s, a) && DrainBooks(s, q, before, y)
    requires Distinct(names) && q in names
    requires BeginsWith(a).Some? ==> BeginsWith(a).value in names
    requires !(a.DeleteBegin? && a.q == q) && TakesTurns(s, a, q)
    requires s' == Apply(s, a) && y' == Tallied(s, a, q, y)
    ensures Coherent(s') && DrainBooks(s', q, before, y')
  {
    StepKeepsBooks(s, a, q, names, base, before, y, y');
  }

  lemma TurnsPrefix(js: Store, actions: seq<Action>, q: string)
    requires IsRun(Start(js), actions) && actions != [] && DrainsTakeTurns(js, actions, q)
    ensures var front, a := actions[..|actions| - 1], actions[|actions| - 1];
      && IsRun(Start(js), front) && DrainsTakeTurns(js, front, q) && TakesTurns(Run(Start(js), front), a, q)
      && TallyOf(js, actions, q) == Tallied(Run(Start(js), front), a, q, TallyOf(js, front, q))
  {
  }

  lemma NoBooksYet(js: Store, q: string)
    ensures DrainBooks(Start(js), q, PurgedBefore(js, q), Tally(0, 0, 0))
  {
  }

  ghost predicate RunBooks(js: Store, actions: seq<Action>, q: string)
    requires IsRun(Start(js), actions)
  {
    DrainBooks(Run(Start(js), actions), q, PurgedBefore(js, q), TallyOf(js, actions, q))
  }

  lemma LastStepKeepsBooks(js: Store, actions: seq<Action>, names: set<string>, q: string)
    requires Setting(js, actions, names, q) && DrainsTakeTurns(js, actions, q) && actions != []
    requires RunBooks(js, actions[..|actions| - 1], q)
    ensures RunBooks(js, actions, q)
  {
    var s, a := LastStep(js, actions, names, q);
    BooksMoveOn(s, a, Run(Start(js), actions), q, names, Base(js, q), PurgedBefore(js, q),
                TallyOf(js, actions[..|actions| - 1], q), TallyOf(js, actions, q));
  }

  lemma LastStep(js: Store, actions: seq<Action>, names: set<string>, q: string) returns (s: State, a: Action)
    requires Setting(js, actions, names, q) && DrainsTakeTurns(js, actions, q) && actions != []
    ensures Setting(js, actions[..|actions| - 1], names, q)
    ensures s == Run(Start(js), actions[..|actions| - 1]) && Accounted(s, q, names, Base(js, q))
    ensures Enabled(s, a) && Run(Start(js), actions) == Apply(s, a)
    ensures BeginsWith(a).Some? ==> BeginsWith(a).value in names
    ensures !(a.DeleteBegin? && a.q == q) && TakesTurns(s, a, q)
    ensures TallyOf(js, actions, q) == Tallied(s, a, q, TallyOf(js, actions[..|actions| - 1], q))
  {
    SettingPrefix(js, actions, names, q);
    TurnsPrefix(js, actions, q);
    RunIsAccounted(js, actions[..|actions| - 1], names, q);
    s, a := Run(Start(js), actions[..|actions| - 1]), actions[|actions| - 1];
  }

  lemma {:induction false} RunKeepsBooks(js: Store, actions: seq<Action>, names: set<string>, q: string)
    requires Setting(js, actions, names, q) && DrainsTakeTurns(js, actions, q)
    ensures RunBooks(js, actions, q)
  {
    if actions == [] {
      NoBooksYet(js, q);
    } else {
      SettingPrefix(js, actions, names, q);
      TurnsPrefix(js, actions, q);
      RunKeepsBooks(js, actions[..|actions| - 1], names, q);
      LastStepKeepsBooks(js, actions, names, q);
    }
  }

  /** When drains take turns, whatever fails in them, outside a drain: depth, drained, what was
      purged uncounted and what was purged before the run together are what was there, plus
      enqueued, plus the puts not yet counted, plus what was counted and not purged. */
  lemma {:induction false} DrainedIsPurged(js: Store, actions: seq<Action>, names: set<string>, q: string)
    requires Setting(js, actions, names, q) && DrainsTakeTurns(js, actions, q)
    requires var s := Run(Start(js), actions); q in s.b.queues && !SomeWindow(s.ops, q)
    ensures var s, y := Run(Start(js), actions), TallyOf(js, actions, q);
      && StreamName(q) in s.b.js
      && var c, puts := s.b.cells[s.b.queues[q]], |Puts(s.ops, s.b.queues[q])|;
         Depth(s.b.js[StreamName(q)]) + c.drained + y.missed + PurgedBefore(js, q)
         == Base(js, q) + c.enq + puts + y.excess
  {
    RunKeepsBooks(js, actions, names, q);
    StoredIsCounted(js, actions, names, q);
  }

  /** So, on a queue that started empty, depth plus drained equals enqueued plus the puts not yet
      counted exactly when as many messages were purged uncounted as were counted and not purged. */
  lemma {:induction false} DrainedIsExactIff(js: Store, actions: seq<Action>, names: set<string>, q: string)
    requires Setting(js, actions, names, q) && DrainsTakeTurns(js, actions, q) && StreamName(q) !in js
    requires var s := Run(Start(js), actions); q in s.b.queues && !SomeWindow(s.ops, q)
    ensures var s, y := Run(Start(js), actions), TallyOf(js, actions, q);
      && StreamName(q) in s.b.js
      && var c, puts := s.b.cells[s.b.queues[q]], |Puts(s.ops, s.b.queues[q])|;
         Depth(s.b.js[StreamName(q)]) + c.drained == c.enq + puts <==> y.missed == y.excess
  {
    DrainedIsPurged(js, actions, names, q);
  }

  // ---------- When no drain fails, only slips matter ----------

  /** No call of a drain of `q` fails in this step. */
  predicate DrainSucceeds(s: State, a: Action, q: string) {
    DrainsQueue(s, a, q) && (a.DrainInfo? || a.Purge?) ==> Works(s.b.js, q, a.fault)
  }

  ghost predicate DrainsSucceed(js: Store, actions: seq<Action>, q: string)
    requires IsRun(Start(js), actions)
  {
    actions == [] ||
    (DrainsSucceed(js, actions[..|actions| - 1], q)
     && DrainSucceeds(Run(Start(js), actions[..|actions| - 1]), actions[|actions| - 1], q))
  }

  /** How many messages of `q` were stored while a drain of `q` was open. */
  ghost function Slipped(js: Store, actions: seq<Action>, q: string): nat
    requires IsRun(Start(js), actions)
  {
    if actions == [] then 0
    else
      var s, a := Run(Start(js), actions[..|actions| - 1]), actions[|actions| - 1];
      Slipped(js, actions[..|actions| - 1], q) + (if Stores(s, a, q) && SomeWindow(s.ops, q) then 1 else 0)
  }

  lemma {:induction false} OnlySlipsAreMissed(js: Store, actions: seq<Action>, names: set<string>, q: string)
    requires Setting(js, actions, names, q) && DrainsTakeTurns(js, actions, q) && DrainsSucceed(js, actions, q)
    ensures var y := TallyOf(js, actions, q); y.excess == 0 && y.missed + y.pending == Slipped(js, actions, q)
  {
    if actions != [] {
      var front, a := actions[..|actions| - 1], actions[|actions| - 1];
      SettingPrefix(js, actions, names, q);
      TurnsPrefix(js, actions, q);
      OnlySlipsAreMissed(js, front, names, q);
      NothingPendsOutside(js, front, names, q);
      SucceedingStep(Run(Start(js), front), a, q, TallyOf(js, front, q));
    }
  }

  lemma SucceedingStep(s: State, a: Action, q: string, y: Tally)
    requires Coherent(s) && Enabled(s, a) && TakesTurns(s, a, q) && DrainSucceeds(s, a, q)
    requires !SomeWindow(s.ops, q) ==> y.pending == 0
    ensures var y' := Tallied(s, a, q, y);
      && y'.excess == y.excess
      && y'.missed + y'.pending == y.missed + y.pending + (if Stores(s, a, q) && SomeWindow(s.ops, q) then 1 else 0)
  {
    if a.DrainInfo? && DrainsQueue(s, a, q) {
      assert !SomeWindow(s.ops, q);
    }
  }

  lemma NothingPendsOutside(js: Store, actions: seq<Action>, names: set<string>, q: string)
    requires Setting(js, actions, names, q) && DrainsTakeTurns(js, actions, q)
    ensures !SomeWindow(Run(Start(js), actions).ops, q) ==> TallyOf(js, actions, q).pending == 0
  {
    RunKeepsBooks(js, actions, names, q);
    RunIsAccounted(js, actions, names, q);
  }

  /** When the calls of drains succeed, depth plus drained is exact exactly when no message was
      stored during a drain. */
  lemma {:induction false} DrainedIsExactIffNothingSlips(js: Store, actions: seq<Action>, names: set<string>, q: string)
    requires Setting(js, actions, names, q) && DrainsTakeTurns(js, actions, q) && StreamName(q) !in js
    requires DrainsSucceed(js, actions, q)
    requires var s := Run(Start(js), actions); q in s.b.queues && !SomeWindow(s.ops, q)
    ensures var s := Run(Start(js), actions);
      && StreamName(q) in s.b.js
      && var c, puts := s.b.cells[s.b.queues[q]], |Puts(s.ops, s.b.queues[q])|;
         Depth(s.b.js[StreamName(q)]) + c.drained == c.enq + puts <==> Slipped(js, actions, q) == 0
  {
    DrainedIsExactIff(js, actions, names, q);
    OnlySlipsAreMissed(js, actions, names, q);
    NothingPendsOutside(js, actions, names, q);
  }
}
