/** Runs that leave a queue miscounted: two drains at once, a put during a drain, a failed purge. */
module MemQMiscounts {
  import opened JetStream
  import opened NatsBackend
  import opened MemQSystem
  import MemQRegistry

  // ---------- Overlapping drains, in general ----------

  /** The three steps of one drain of `q` whose calls succeed. */
  lemma DrainSteps(s: State, t: nat, q: string, k: nat, n: nat)
    requires Coherent(s) && StreamName(q) in s.b.js && k < |s.b.cells|
    ensures OpOf(s, t) == DrainFound(q, k) ==>
      && Enabled(s, DrainInfo(t, false))
      && Apply(s, DrainInfo(t, false)) == State(s.b, s.ops[t := DrainRead(q, k, Depth(s.b.js[StreamName(q)]))])
    ensures OpOf(s, t) == DrainRead(q, k, n) ==>
      && Enabled(s, DrainCount(t))
      && Apply(s, DrainCount(t)) == State(CountDrained(s.b, k, n), s.ops[t := DrainReady(q, k, n)])
    ensures OpOf(s, t) == DrainReady(q, k, n) ==>
      && Enabled(s, Purge(t, false))
      && Apply(s, Purge(t, false)) == State(s.b.(js := AfterPurge(s.b.js, StreamName(q))), s.ops[t := Idle])
  {
  }

  function BothRead(t: nat, u: nat): seq<Action> { [DrainInfo(t, false)] + [DrainInfo(u, false)] }

  function BothCounted(t: nat, u: nat): seq<Action> { [DrainCount(t)] + [DrainCount(u)] }

  function BothPurged(t: nat, u: nat): seq<Action> { [Purge(t, false)] + [Purge(u, false)] }

  function Overlap(t: nat, u: nat): seq<Action> { BothRead(t, u) + BothCounted(t, u) + BothPurged(t, u) }

  lemma BothReadLeads(s: State, t: nat, u: nat, q: string, k: nat) returns (s': State)
    requires Coherent(s) && t != u && k < |s.b.cells| && StreamName(q) in s.b.js
    requires OpOf(s, t) == DrainFound(q, k) && OpOf(s, u) == DrainFound(q, k)
    ensures Coherent(s') && Leads(s, BothRead(t, u), s')
    ensures var d := Depth(s.b.js[StreamName(q)]); s' == State(s.b, s.ops[t := DrainRead(q, k, d)][u := DrainRead(q, k, d)])
  {
    var a, b := DrainInfo(t, false), DrainInfo(u, false);
    DrainSteps(s, t, q, k, 0);
    OneStep(s, a);
    DrainSteps(Apply(s, a), u, q, k, 0);
    OneStep(Apply(s, a), b);
    s' := Apply(Apply(s, a), b);
    LeadsOn(s, [a], Apply(s, a), [b], s');
  }

  lemma BothCountedLeads(s: State, t: nat, u: nat, q: string, k: nat, d: nat) returns (s': State)
    requires Coherent(s) && t != u && k < |s.b.cells| && StreamName(q) in s.b.js
    requires OpOf(s, t) == DrainRead(q, k, d) && OpOf(s, u) == DrainRead(q, k, d)
    ensures Coherent(s') && Leads(s, BothCounted(t, u), s')
    ensures s' == State(CountDrained(CountDrained(s.b, k, d), k, d), s.ops[t := DrainReady(q, k, d)][u := DrainReady(q, k, d)])
  {
    var a, b := DrainCount(t), DrainCount(u);
    DrainSteps(s, t, q, k, d);
    OneStep(s, a);
    DrainSteps(Apply(s, a), u, q, k, d);
    OneStep(Apply(s, a), b);
    s' := Apply(Apply(s, a), b);
    LeadsOn(s, [a], Apply(s, a), [b], s');
  }

  lemma BothPurgedLeads(s: State, t: nat, u: nat, q: string, k: nat, d: nat) returns (s': State)
    requires Coherent(s) && t != u && k < |s.b.cells| && StreamName(q) in s.b.js
    requires OpOf(s, t) == DrainReady(q, k, d) && OpOf(s, u) == DrainReady(q, k, d)
    ensures Coherent(s') && Leads(s, BothPurged(t, u), s')
    ensures s' == State(s.b.(js := AfterPurge(s.b.js, StreamName(q))), s.ops[t := Idle][u := Idle])
  {
    var a, b := Purge(t, false), Purge(u, false);
    DrainSteps(s, t, q, k, d);
    OneStep(s, a);
    DrainSteps(Apply(s, a), u, q, k, d);
    OneStep(Apply(s, a), b);
    s' := Apply(Apply(s, a), b);
    LeadsOn(s, [a], Apply(s, a), [b], s');
    assert AfterPurge(AfterPurge(s.b.js, StreamName(q)), StreamName(q)) == AfterPurge(s.b.js, StreamName(q));
  }

  lemma LeadsThree(s: State, a: seq<Action>, s1: State, b: seq<Action>, s2: State, c: seq<Action>, s3: State)
    requires Coherent(s) && Coherent(s1) && Coherent(s2)
    requires Leads(s, a, s1) && Leads(s1, b, s2) && Leads(s2, c, s3)
    ensures Leads(s, a + b + c, s3)
  {
    LeadsOn(s, a, s1, b, s2);
    LeadsOn(s, a + b, s2, c, s3);
  }

  lemma LeadsFour(s: State, a: seq<Action>, s1: State, b: seq<Action>, s2: State, c: seq<Action>, s3: State, d: seq<Action>, s4: State)
    requires Coherent(s) && Coherent(s1) && Coherent(s2) && Coherent(s3)
    requires Leads(s, a, s1) && Leads(s1, b, s2) && Leads(s2, c, s3) && Leads(s3, d, s4)
    ensures Leads(s, a + b + c + d, s4)
  {
    LeadsThree(s, a, s1, b, s2, c, s3);
    LeadsOn(s, a + b + c, s3, d, s4);
  }

  /** Two drains that both read the depth before either purges count every message twice. */
  lemma {:induction false} OverlappingDrainsCountTwice(s: State, t: nat, u: nat, q: string, k: nat) returns (s': State)
    requires Coherent(s) && t != u && k < |s.b.cells| && StreamName(q) in s.b.js
    requires OpOf(s, t) == DrainFound(q, k) && OpOf(s, u) == DrainFound(q, k)
    ensures Coherent(s') && Leads(s, Overlap(t, u), s')
    ensures var d := Depth(s.b.js[StreamName(q)]);
      s'.b == CountDrained(CountDrained(s.b, k, d), k, d).(js := AfterPurge(s.b.js, StreamName(q)))
    ensures s'.ops == s.ops[t := Idle][u := Idle]
  {
    var d := Depth(s.b.js[StreamName(q)]);
    var s1 := BothReadLeads(s, t, u, q, k);
    var s2 := BothCountedLeads(s1, t, u, q, k, d);
    s' := BothPurgedLeads(s2, t, u, q, k, d);
    LeadsThree(s, BothRead(t, u), s1, BothCounted(t, u), s2, BothPurged(t, u), s');
    LastPlaces(s.ops, t, u, DrainRead(q, k, d), DrainReady(q, k, d));
  }

  lemma LastPlaces(ops: map<nat, Op>, t: nat, u: nat, first: Op, second: Op)
    ensures ops[t := first][u := first][t := second][u := second][t := Idle][u := Idle] == ops[t := Idle][u := Idle]
  {
  }

  // ---------- Three runs from nothing that end miscounted ----------

  /** One queue, its stream and its counters, and nothing else. */
  function Only(q: string, log: seq<string>, purged: nat, enq: nat, drained: nat): Backend {
    Backend(map[StreamName(q) := Stream(Subject(q), log, purged, map[])], map[q := 0], [Cell(q, enq, 0, drained)])
  }

  /** Calls 0, 1 and 2 are at these places, and there are no others. */
  ghost predicate Stands(s: State, b: Backend, op0: Op, op1: Op, op2: Op) {
    && Coherent(s) && s.b == b
    && OpOf(s, 0) == op0 && OpOf(s, 1) == op1 && OpOf(s, 2) == op2
    && forall t :: t in s.ops && t > 2 ==> s.ops[t] == Idle
  }

  lemma NobodyWrites(s: State, b: Backend, op0: Op, op1: Op, op2: Op)
    requires Stands(s, b, op0, op1, op2) && !IsWriter(op0) && !IsWriter(op1) && !IsWriter(op2)
    ensures NoWriter(s)
  {
    forall t | t in s.ops ensures !IsWriter(s.ops[t]) {
      assert s.ops[t] == OpOf(s, t);
    }
  }

  lemma CreateStands(q: string) returns (s: State)
    requires q != ""
    ensures Leads(Start(map[]), MemQRegistry.CreateRun(q), s) && Stands(s, Only(q, [], 0, 0, 0), Idle, Idle, Idle)
  {
    MemQRegistry.FirstCreate(q);
    s := Run(Start(map[]), MemQRegistry.CreateRun(q));
  }

  function PutRun(q: string, body: string): seq<Action> {
    [PutBegin(0, q, body)] + [Publish(0, StreamName(q), true)] + [PutCount(0, false)]
  }

  /** One step of call 0 or 1. */
  lemma StepStands(s: State, a: Action, op0: Op, op1: Op, op2: Op, b': Backend, op': Op)
    requires Stands(s, s.b, op0, op1, op2) && Enabled(s, a) && a.t < 2
    requires NextBackend(s, a) == b' && NextOp(s, a) == op'
    ensures Coherent(Apply(s, a)) && Leads(s, [a], Apply(s, a))
    ensures Stands(Apply(s, a), b', if a.t == 0 then op' else op0, if a.t == 1 then op' else op1, op2)
  {
    OneStep(s, a);
    StandsAfter(s, op0, op1, op2, a.t, b', op', Apply(s, a));
  }

  lemma StandsAfter(s: State, op0: Op, op1: Op, op2: Op, t: nat, b': Backend, op': Op, s': State)
    requires Stands(s, s.b, op0, op1, op2) && t < 2 && Coherent(s') && s' == State(b', s.ops[t := op'])
    ensures Stands(s', b', if t == 0 then op' else op0, if t == 1 then op' else op1, op2)
  {
  }

  lemma PublishesInto(q: string, log: seq<string>, enq: nat, drained: nat, body: string)
    ensures AfterPublish(Only(q, log, 0, enq, drained).js, StreamName(q), body) == Only(q, log + [body], 0, enq, drained).js
    ensures CountEnq(Only(q, log + [body], 0, enq, drained), 0) == Only(q, log + [body], 0, enq + 1, drained)
  {
  }

  lemma PutStands(s: State, q: string, log: seq<string>, drained: nat, op1: Op, body: string) returns (s': State)
    requires Stands(s, Only(q, log, 0, |log|, drained), Idle, op1, Idle) && !IsWriter(op1)
    ensures Coherent(s) && Leads(s, PutRun(q, body), s')
    ensures Stands(s', Only(q, log + [body], 0, |log| + 1, drained), Idle, op1, Idle)
  {
    NobodyWrites(s, s.b, Idle, op1, Idle);
    PublishesInto(q, log, |log|, drained, body);
    var a, b, c := PutBegin(0, q, body), Publish(0, StreamName(q), true), PutCount(0, false);
    StepStands(s, a, Idle, op1, Idle, s.b, PutFound(q, 0, body));
    var s1 := Apply(s, a);
    StepStands(s1, b, PutFound(q, 0, body), op1, Idle, Only(q, log + [body], 0, |log|, drained), PutPublished(q, 0));
    var s2 := Apply(s1, b);
    StepStands(s2, c, PutPublished(q, 0), op1, Idle, Only(q, log + [body], 0, |log| + 1, drained), Idle);
    s' := Apply(s2, c);
    LeadsThree(s, [a], s1, [b], s2, [c], s');
  }

  lemma OpenStands(s: State, q: string, log: seq<string>) returns (s': State)
    requires Stands(s, Only(q, log, 0, |log|, 0), Idle, Idle, Idle)
    ensures Leads(s, OpenRun(q), s')
    ensures Stands(s', Only(q, log, 0, |log|, 0), Idle, DrainRead(q, 0, |log|), Idle)
  {
    NobodyWrites(s, s.b, Idle, Idle, Idle);
    var a, b := DrainBegin(1, q), DrainInfo(1, false);
    StepStands(s, a, Idle, Idle, Idle, s.b, DrainFound(q, 0));
    StepStands(Apply(s, a), b, Idle, DrainFound(q, 0), Idle, s.b, DrainRead(q, 0, |log|));
    s' := Apply(Apply(s, a), b);
    LeadsOn(s, [a], Apply(s, a), [b], s');
  }

  lemma PurgesAll(q: string, log: seq<string>, n: nat)
    ensures CountDrained(Only(q, log, 0, |log|, 0), 0, n) == Only(q, log, 0, |log|, n)
    ensures var b := Only(q, log, 0, |log|, n); b.(js := AfterPurge(b.js, StreamName(q))) == Only(q, log, |log|, |log|, n)
  {
  }

  lemma CloseStands(s: State, q: string, log: seq<string>, n: nat, fault: bool) returns (s': State)
    requires Stands(s, Only(q, log, 0, |log|, 0), Idle, DrainRead(q, 0, n), Idle)
    ensures Leads(s, CloseRun(fault), s')
    ensures Stands(s', Only(q, log, if fault then 0 else |log|, |log|, n), Idle, Idle, Idle)
  {
    PurgesAll(q, log, n);
    var a, b := DrainCount(1), Purge(1, fault);
    StepStands(s, a, Idle, DrainRead(q, 0, n), Idle, Only(q, log, 0, |log|, n), DrainReady(q, 0, n));
    StepStands(Apply(s, a), b, Idle, DrainReady(q, 0, n), Idle, Only(q, log, if fault then 0 else |log|, |log|, n), Idle);
    s' := Apply(Apply(s, a), b);
    LeadsOn(s, [a], Apply(s, a), [b], s');
  }

  /** Nothing runs, and depth plus drained is not enqueued plus the puts not yet counted. */
  ghost predicate EndsMiscounted(actions: seq<Action>, q: string) {
    && IsRun(Start(map[]), actions)
    && var s := Run(Start(map[]), actions);
       && MemQRegistry.AllIdle(s) && q in s.b.queues && StreamName(q) in s.b.js
       && Depth(s.b.js[StreamName(q)]) + s.b.cells[s.b.queues[q]].drained
          != s.b.cells[s.b.queues[q]].enq + |Puts(s.ops, s.b.queues[q])|
  }

  lemma IdleEverywhere(s: State, b: Backend)
    requires Stands(s, b, Idle, Idle, Idle)
    ensures MemQRegistry.AllIdle(s) && Puts(s.ops, 0) == {}
  {
    forall t | t in s.ops ensures s.ops[t] == Idle {
      assert s.ops[t] == OpOf(s, t);
    }
  }

  lemma IdleMiscounts(actions: seq<Action>, s: State, q: string, log: seq<string>, purged: nat, drained: nat)
    requires Leads(Start(map[]), actions, s) && Stands(s, Only(q, log, purged, |log|, drained), Idle, Idle, Idle)
    requires purged <= |log| && drained != purged
    ensures EndsMiscounted(actions, q)
  {
    IdleEverywhere(s, s.b);
    assert s.b.cells[s.b.queues[q]] == Cell(q, |log|, 0, drained);
  }

  /** A chain of four parts from nothing to a miscounted end. */
  lemma ChainMiscounts(a: seq<Action>, s1: State, b: seq<Action>, s2: State, c: seq<Action>, s3: State, d: seq<Action>, s4: State,
                       q: string, log: seq<string>, purged: nat, drained: nat)
    requires Coherent(s1) && Coherent(s2) && Coherent(s3)
    requires Leads(Start(map[]), a, s1) && Leads(s1, b, s2) && Leads(s2, c, s3) && Leads(s3, d, s4)
    requires Stands(s4, Only(q, log, purged, |log|, drained), Idle, Idle, Idle) && purged <= |log| && drained != purged
    ensures EndsMiscounted(a + b + c + d, q)
  {
    LeadsFour(Start(map[]), a, s1, b, s2, c, s3, d, s4);
    IdleMiscounts(a + b + c + d, s4, q, log, purged, drained);
  }

  function OpenRun(q: string): seq<Action> { [DrainBegin(1, q)] + [DrainInfo(1, false)] }

  function CloseRun(fault: bool): seq<Action> { [DrainCount(1)] + [Purge(1, fault)] }

  /** A put between a drain's depth read and its purge. */
  lemma {:induction false} SlipMiscounts(q: string, body: string)
    requires q != ""
    ensures EndsMiscounted(MemQRegistry.CreateRun(q) + OpenRun(q) + PutRun(q, body) + CloseRun(false), q)
  {
    var s1 := CreateStands(q);
    SlipsFrom(s1, q, [], body);
  }

  /** The same from any log the stream has. */
  lemma SlipsFrom(s1: State, q: string, log: seq<string>, body: string)
    requires Leads(Start(map[]), MemQRegistry.CreateRun(q), s1) && Stands(s1, Only(q, log, 0, |log|, 0), Idle, Idle, Idle)
    ensures EndsMiscounted(MemQRegistry.CreateRun(q) + OpenRun(q) + PutRun(q, body) + CloseRun(false), q)
  {
    var s2 := OpenStands(s1, q, log);
    var s3 := PutStands(s2, q, log, 0, DrainRead(q, 0, |log|), body);
    var s4 := CloseStands(s3, q, log + [body], |log|, false);
    ChainMiscounts(MemQRegistry.CreateRun(q), s1, OpenRun(q), s2, PutRun(q, body), s3, CloseRun(false), s4,
                   q, log + [body], |log| + 1, |log|);
  }

  /** A drain that counts and then fails to purge. */
  lemma {:induction false} FailedPurgeMiscounts(q: string, body: string)
    requires q != ""
    ensures EndsMiscounted(MemQRegistry.CreateRun(q) + PutRun(q, body) + OpenRun(q) + CloseRun(true), q)
  {
    var s1 := CreateStands(q);
    var s2 := PutStands(s1, q, [], 0, Idle, body);
    var s3 := OpenStands(s2, q, [] + [body]);
    var s4 := CloseStands(s3, q, [] + [body], 1, true);
    ChainMiscounts(MemQRegistry.CreateRun(q), s1, PutRun(q, body), s2, OpenRun(q), s3, CloseRun(true), s4, q, [] + [body], 0, 1);
  }

  function BothBegun(q: string): seq<Action> { [DrainBegin(1, q)] + [DrainBegin(2, q)] }

  lemma BothBeginStand(s: State, q: string, log: seq<string>) returns (s': State)
    requires Stands(s, Only(q, log, 0, |log|, 0), Idle, Idle, Idle)
    ensures Leads(s, BothBegun(q), s')
    ensures Stands(s', Only(q, log, 0, |log|, 0), Idle, DrainFound(q, 0), DrainFound(q, 0))
  {
    NobodyWrites(s, s.b, Idle, Idle, Idle);
    var a, b := DrainBegin(1, q), DrainBegin(2, q);
    OneStep(s, a);
    NobodyWrites(Apply(s, a), s.b, Idle, DrainFound(q, 0), Idle);
    OneStep(Apply(s, a), b);
    s' := Apply(Apply(s, a), b);
    LeadsOn(s, [a], Apply(s, a), [b], s');
  }

  /** Two drains of one message at once. */
  lemma {:induction false} OverlapMiscounts(q: string, body: string)
    requires q != ""
    ensures EndsMiscounted(MemQRegistry.CreateRun(q) + PutRun(q, body) + BothBegun(q) + Overlap(1, 2), q)
  {
    var log := [] + [body];
    var s1 := CreateStands(q);
    var s2 := PutStands(s1, q, [], 0, Idle, body);
    var s3 := BothBeginStand(s2, q, log);
    var s4 := OverlapStands(s3, q, log);
    ChainMiscounts(MemQRegistry.CreateRun(q), s1, PutRun(q, body), s2, BothBegun(q), s3, Overlap(1, 2), s4, q, log, 1, 2);
  }

  lemma OverlapStands(s: State, q: string, log: seq<string>) returns (s': State)
    requires Stands(s, Only(q, log, 0, |log|, 0), Idle, DrainFound(q, 0), DrainFound(q, 0))
    ensures Leads(s, Overlap(1, 2), s')
    ensures Stands(s', Only(q, log, |log|, |log|, |log| + |log|), Idle, Idle, Idle)
  {
    s' := OverlappingDrainsCountTwice(s, 1, 2, q, 0);
    BothCount(q, log);
  }

  lemma BothCount(q: string, log: seq<string>)
    ensures var b := Only(q, log, 0, |log|, 0);
      CountDrained(CountDrained(b, 0, |log|), 0, |log|).(js := AfterPurge(b.js, StreamName(q)))
      == Only(q, log, |log|, |log|, |log| + |log|)
  {
  }
}
