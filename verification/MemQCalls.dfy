/** Undisturbed calls: a call that runs without interference takes the interleaved model exactly
    where the backend's own method goes, with the same answer, whatever fails in it. */
module MemQCalls {
  import opened JetStream
  import opened NatsBackend
  import opened MemQSystem

  /** Nothing runs: the lock is free and call `t` may begin. */
  ghost predicate Quiet(s: State, t: nat) {
    Coherent(s) && OpOf(s, t) == Idle && NoWriter(s) && NoReader(s)
  }

  /** The given steps one after the other, passing over those the call has no use for: a call
      that found nothing or failed is over, a drain that read no depth has nothing to count. */
  ghost function Alone(s: State, steps: seq<Action>): (s': State)
    requires Coherent(s)
    ensures Coherent(s')
  {
    if steps == [] then s
    else
      var before, a := Alone(s, steps[..|steps| - 1]), steps[|steps| - 1];
      if Enabled(before, a) then
        StepStaysCoherent(before, a);
        Apply(before, a)
      else before
  }

  /** The steps that were taken. */
  ghost function Taken(s: State, steps: seq<Action>): seq<Action>
    requires Coherent(s)
  {
    if steps == [] then []
    else
      var front, a := steps[..|steps| - 1], steps[|steps| - 1];
      Taken(s, front) + (if Enabled(Alone(s, front), a) then [a] else [])
  }

  /** So these are runs of the interleaved model. */
  lemma {:induction false} AloneIsARun(s: State, steps: seq<Action>)
    requires Coherent(s)
    ensures IsRun(s, Taken(s, steps)) && Run(s, Taken(s, steps)) == Alone(s, steps)
  {
    if steps != [] {
      var front, a := steps[..|steps| - 1], steps[|steps| - 1];
      AloneIsARun(s, front);
      if Enabled(Alone(s, front), a) {
        RunSnoc(s, Taken(s, front), a);
      } else {
        assert Taken(s, front) + [] == Taken(s, front);
      }
    }
  }

  // ---------- What a call answers ----------

  datatype Answer = Pending | Done(err: Error)

  /** The answer of a call that is over with this step. */
  function AnswerOf(s: State, a: Action): Answer
    requires Coherent(s) && Enabled(s, a)
  {
    var op, js, queues := OpOf(s, a.t), s.b.js, s.b.queues;
    match a
    case PutBegin(_, q, _) => if q in queues then Pending else Done(ErrNotExist)
    case Publish(_, _, ok) => if ok then Pending else Done(ErrBackend)
    case PutCount(_, idFault) => Done(if idFault then ErrNoID else NoError)
    case GetBegin(_, q) => if q in queues then Pending else Done(ErrNotExist)
    case Subscribe(_, how) => if CanSubscribe(js, op.q, how) then Pending else Done(ErrBackend)
    case Fetch(_, answer) =>
      if CanFetch(js, op.stream, op.q, answer) then Pending
      else Done(if answer == Failed then ErrBackend else ErrEmptyQueue)
    case GetCount(_) => Done(NoError)
    case DrainBegin(_, q) => if q in queues then Pending else Done(ErrNotExist)
    case Purge(_, fault) => Done(if !fault && StreamName(op.q) in js then NoError else ErrBackend)
    case CreateBegin(_, q, _, _) =>
      if q == "" then Done(ErrEmptyName)
      else if q in queues then Done(ErrAlreadyExist)
      else if NextOp(s, a).Idle? then Done(ErrBackend)
      else Pending
    case CreateEnd(_) => Done(if op.inUse then ErrAlreadyExist else NoError)
    case DeleteBegin(_, q, _) =>
      if q == "" then Done(ErrEmptyName)
      else if q !in queues then Done(ErrNotExist)
      else if NextOp(s, a).Idle? then Done(ErrBackend)
      else Pending
    case DeleteEnd(_) => Done(NoError)
    case _ => Pending
  }

  /** What the call has answered after these steps. */
  ghost function Answered(s: State, steps: seq<Action>): Answer
    requires Coherent(s)
  {
    if steps == [] then Pending
    else
      var before, a := Alone(s, steps[..|steps| - 1]), steps[|steps| - 1];
      if Enabled(before, a) && AnswerOf(before, a).Done? then AnswerOf(before, a)
      else Answered(s, steps[..|steps| - 1])
  }

  /** Taken alone, the steps lead from `s` to `s'` with this answer. */
  ghost predicate Goes(s: State, steps: seq<Action>, s': State, answer: Answer) {
    Coherent(s) && Coherent(s') && Alone(s, steps) == s' && Answered(s, steps) == answer
  }

  function Later(first: Answer, second: Answer): Answer {
    if second.Done? then second else first
  }

  lemma One(s: State, a: Action)
    requires Coherent(s)
    ensures Enabled(s, a) ==> Coherent(Apply(s, a)) && Goes(s, [a], Apply(s, a), AnswerOf(s, a))
    ensures !Enabled(s, a) ==> Goes(s, [a], s, Pending)
  {
    assert [a][..0] == [];
    if Enabled(s, a) {
      StepStaysCoherent(s, a);
    }
  }

  lemma GoesOneMore(s: State, first: seq<Action>, s1: State, x: Answer, a: Action)
    requires Goes(s, first, s1, x)
    ensures Enabled(s1, a) ==> Coherent(Apply(s1, a)) && Goes(s, first + [a], Apply(s1, a), Later(x, AnswerOf(s1, a)))
    ensures !Enabled(s1, a) ==> Goes(s, first + [a], s1, x)
  {
    assert (first + [a])[..|first|] == first;
    if Enabled(s1, a) {
      StepStaysCoherent(s1, a);
    }
  }

  lemma SameLastStep(s: State, joined: seq<Action>, s1: State, front: seq<Action>, s': State, x: Answer, y': Answer, a: Action, s2: State, y: Answer)
    requires Goes(s, joined, s', Later(x, y')) && Goes(s1, front, s', y') && Goes(s1, front + [a], s2, y)
    ensures Goes(s, joined + [a], s2, Later(x, y))
  {
    GoesOneMore(s, joined, s', Later(x, y'), a);
    GoesOneMore(s1, front, s', y', a);
  }

  lemma Rejoin(first: seq<Action>, rest: seq<Action>)
    requires rest != []
    ensures rest[..|rest| - 1] + [rest[|rest| - 1]] == rest
    ensures first + rest[..|rest| - 1] + [rest[|rest| - 1]] == first + rest
  {
  }

  lemma {:induction false} GoesOn(s: State, first: seq<Action>, s1: State, x: Answer, rest: seq<Action>, s2: State, y: Answer)
    requires Goes(s, first, s1, x) && Goes(s1, rest, s2, y)
    ensures Goes(s, first + rest, s2, Later(x, y))
  {
    if rest == [] {
      assert first + rest == first;
    } else {
      var front, a := rest[..|rest| - 1], rest[|rest| - 1];
      var s', y' := Alone(s1, front), Answered(s1, front);
      Rejoin(first, rest);
      GoesOn(s, first, s1, x, front, s', y');
      SameLastStep(s, first + front, s1, front, s', x, y', a, s2, y);
    }
  }

  lemma {:induction false} AllPassedOver(s: State, rest: seq<Action>)
    requires Coherent(s) && forall i :: 0 <= i < |rest| ==> !Enabled(s, rest[i])
    ensures Goes(s, rest, s, Pending)
  {
    if rest != [] {
      var front, a := rest[..|rest| - 1], rest[|rest| - 1];
      AllPassedOver(s, front);
      GoesOneMore(s, front, s, Pending, a);
      assert front + [a] == rest;
    }
  }

  predicate Starts(a: Action) {
    a.PutBegin? || a.GetBegin? || a.DrainBegin? || a.CreateBegin? || a.DeleteBegin? || a.StatsBegin?
  }

  lemma OnlyStartsFromIdle(s: State, a: Action)
    requires OpOf(s, a.t) == Idle && !Starts(a)
    ensures !Enabled(s, a)
  {
  }

  lemma OverIsOver(s: State, t: nat, rest: seq<Action>)
    requires Coherent(s) && OpOf(s, t) == Idle
    requires forall i :: 0 <= i < |rest| ==> rest[i].t == t && !Starts(rest[i])
    ensures Goes(s, rest, s, Pending)
  {
    forall i | 0 <= i < |rest| ensures !Enabled(s, rest[i]) {
      OnlyStartsFromIdle(s, rest[i]);
    }
    AllPassedOver(s, rest);
  }

  /** The first step of a call, and then the rest. */
  lemma FirstThen(s: State, a: Action, rest: seq<Action>, s2: State, y: Answer)
    requires Coherent(s) && Enabled(s, a) && Goes(Apply(s, a), rest, s2, y)
    ensures Goes(s, [a] + rest, s2, Later(AnswerOf(s, a), y))
  {
    One(s, a);
    GoesOn(s, [a], Apply(s, a), AnswerOf(s, a), rest, s2, y);
  }

  /** `steps`, taken alone from `s` by call `t`, end the call with backend `b` and this answer. */
  ghost predicate Ends(s: State, steps: seq<Action>, t: nat, b: Backend, err: Error) {
    Coherent(s) && Alone(s, steps).b == b && OpOf(Alone(s, steps), t) == Idle && Answered(s, steps) == Done(err)
  }

  lemma EndsLater(s: State, a: Action, rest: seq<Action>, b: Backend, err: Error)
    requires Coherent(s) && Enabled(s, a) && Coherent(Apply(s, a)) && Ends(Apply(s, a), rest, a.t, b, err)
    ensures Ends(s, [a] + rest, a.t, b, err)
  {
    FirstThen(s, a, rest, Alone(Apply(s, a), rest), Done(err));
  }

  lemma EndsAtOnce(s: State, a: Action, rest: seq<Action>, b: Backend, err: Error)
    requires Coherent(s) && Enabled(s, a) && NextOp(s, a) == Idle && NextBackend(s, a) == b && AnswerOf(s, a) == Done(err)
    requires forall i :: 0 <= i < |rest| ==> rest[i].t == a.t && !Starts(rest[i])
    ensures Ends(s, [a] + rest, a.t, b, err)
  {
    StepStaysCoherent(s, a);
    OverIsOver(Apply(s, a), a.t, rest);
    FirstThen(s, a, rest, Apply(s, a), Pending);
  }

  lemma LastStepEnds(s: State, a: Action, b: Backend, err: Error)
    requires Coherent(s) && Enabled(s, a) && NextOp(s, a) == Idle && NextBackend(s, a) == b && AnswerOf(s, a) == Done(err)
    ensures Ends(s, [a], a.t, b, err)
  {
    One(s, a);
  }

  lemma SkipThenEnds(s: State, a: Action, rest: seq<Action>, t: nat, b: Backend, err: Error)
    requires Coherent(s) && !Enabled(s, a) && Ends(s, rest, t, b, err)
    ensures Ends(s, [a] + rest, t, b, err)
  {
    One(s, a);
    GoesOn(s, [a], s, Pending, rest, Alone(s, rest), Done(err));
  }

  // ---------- Call by call ----------

  lemma {:induction false} CreateIsItsSteps(s: State, t: nat, q: string, same: bool, fault: bool)
    requires Quiet(s, t)
    ensures Ends(s, [CreateBegin(t, q, same, fault)] + [CreateEnd(t)], t,
                 Created(s.b, q, same, fault).0, Created(s.b, q, same, fault).1)
  {
    var a, r := CreateBegin(t, q, same, fault), Created(s.b, q, same, fault);
    if NextOp(s, a) == Idle {
      EndsAtOnce(s, a, [CreateEnd(t)], r.0, r.1);
    } else {
      StepStaysCoherent(s, a);
      LastStepEnds(Apply(s, a), CreateEnd(t), r.0, r.1);
      EndsLater(s, a, [CreateEnd(t)], r.0, r.1);
    }
  }

  lemma {:induction false} DeleteIsItsSteps(s: State, t: nat, q: string, fault: bool)
    requires Quiet(s, t)
    ensures Ends(s, [DeleteBegin(t, q, fault)] + [DeleteEnd(t)], t, Deleted(s.b, q, fault).0, Deleted(s.b, q, fault).1)
  {
    var a, r := DeleteBegin(t, q, fault), Deleted(s.b, q, fault);
    if NextOp(s, a) == Idle {
      EndsAtOnce(s, a, [DeleteEnd(t)], r.0, r.1);
    } else {
      StepStaysCoherent(s, a);
      LastStepEnds(Apply(s, a), DeleteEnd(t), r.0, r.1);
      EndsLater(s, a, [DeleteEnd(t)], r.0, r.1);
    }
  }

  function PublishSteps(t: nat, n: string, ok: bool, idFault: bool): seq<Action> {
    [Publish(t, n, ok)] + [PutCount(t, idFault)]
  }

  lemma PublishIsItsSteps(s: State, t: nat, q: string, k: nat, body: string, n: string, ok: bool, idFault: bool)
    requires Coherent(s) && OpOf(s, t) == PutFound(q, k, body) && k < |s.b.cells|
    requires ok ==> n in s.b.js && s.b.js[n].subject == Subject(q)
    ensures Ends(s, PublishSteps(t, n, ok, idFault), t,
                 if ok then CountEnq(s.b.(js := AfterPublish(s.b.js, n, body)), k) else s.b,
                 if !ok then ErrBackend else if idFault then ErrNoID else NoError)
  {
    var a, c := Publish(t, n, ok), PutCount(t, idFault);
    if ok {
      var b, err := CountEnq(s.b.(js := AfterPublish(s.b.js, n, body)), k), if idFault then ErrNoID else NoError;
      StepStaysCoherent(s, a);
      LastStepEnds(Apply(s, a), c, b, err);
      EndsLater(s, a, [c], b, err);
    } else {
      EndsAtOnce(s, a, [c], s.b, ErrBackend);
    }
  }

  /** `ok` says whether Publish succeeds, which takes a stream `n` with the queue's subject. */
  lemma {:induction false} PutIsItsSteps(s: State, t: nat, q: string, body: string, n: string, ok: bool, idFault: bool)
    requires Quiet(s, t) && (ok ==> n in s.b.js && s.b.js[n].subject == Subject(q))
    ensures Ends(s, [PutBegin(t, q, body)] + PublishSteps(t, n, ok, idFault), t,
                 if q in s.b.queues && ok then CountEnq(s.b.(js := AfterPublish(s.b.js, n, body)), s.b.queues[q]) else s.b,
                 if q !in s.b.queues then ErrNotExist else if !ok then ErrBackend else if idFault then ErrNoID else NoError)
  {
    var a, rest := PutBegin(t, q, body), PublishSteps(t, n, ok, idFault);
    if q in s.b.queues {
      var k := s.b.queues[q];
      StepStaysCoherent(s, a);
      PublishIsItsSteps(Apply(s, a), t, q, k, body, n, ok, idFault);
      EndsLater(s, a, rest, if ok then CountEnq(s.b.(js := AfterPublish(s.b.js, n, body)), k) else s.b,
                if !ok then ErrBackend else if idFault then ErrNoID else NoError);
    } else {
      EndsAtOnce(s, a, rest, s.b, ErrNotExist);
    }
  }

  function FetchSteps(t: nat, answer: FetchFault): seq<Action> { [Fetch(t, answer)] + [GetCount(t)] }

  function ReceiveSteps(t: nat, how: Subscribing, answer: FetchFault): seq<Action> {
    [Subscribe(t, how)] + FetchSteps(t, answer)
  }

  lemma FetchIsItsSteps(s: State, t: nat, q: string, k: nat, n: string, answer: FetchFault)
    requires Coherent(s) && OpOf(s, t) == GetSubscribed(q, k, n) && k < |s.b.cells|
    ensures var can := CanFetch(s.b.js, n, q, answer);
      Ends(s, FetchSteps(t, answer), t, if can then CountDeq(s.b.(js := AfterFetch(s.b.js, n, Durable(q))), k) else s.b,
           if can then NoError else if answer == Failed then ErrBackend else ErrEmptyQueue)
  {
    var a := Fetch(t, answer);
    if CanFetch(s.b.js, n, q, answer) {
      var b := CountDeq(s.b.(js := AfterFetch(s.b.js, n, Durable(q))), k);
      StepStaysCoherent(s, a);
      LastStepEnds(Apply(s, a), GetCount(t), b, NoError);
      EndsLater(s, a, [GetCount(t)], b, NoError);
    } else {
      EndsAtOnce(s, a, [GetCount(t)], s.b, if answer == Failed then ErrBackend else ErrEmptyQueue);
    }
  }

  /** What a get leaves once it found its queue at `k`. */
  function AfterReceiving(b: Backend, q: string, k: nat, how: Subscribing, answer: FetchFault): Backend
    requires k < |b.cells|
  {
    var r := Received(b.js, q, how, answer);
    if r.1 == NoError then CountDeq(b.(js := r.0), k) else b.(js := r.0)
  }

  lemma ReceiveIsItsSteps(s: State, t: nat, q: string, k: nat, how: Subscribing, answer: FetchFault)
    requires Coherent(s) && OpOf(s, t) == GetFound(q, k) && k < |s.b.cells|
    ensures Ends(s, ReceiveSteps(t, how, answer), t, AfterReceiving(s.b, q, k, how, answer), Received(s.b.js, q, how, answer).1)
  {
    var a := Subscribe(t, how);
    if CanSubscribe(s.b.js, q, how) {
      StepStaysCoherent(s, a);
      FetchIsItsSteps(Apply(s, a), t, q, k, StreamFor(q, how), answer);
      EndsLater(s, a, FetchSteps(t, answer), AfterReceiving(s.b, q, k, how, answer), Received(s.b.js, q, how, answer).1);
    } else {
      EndsAtOnce(s, a, FetchSteps(t, answer), s.b, ErrBackend);
    }
  }

  lemma {:induction false} GetIsItsSteps(s: State, t: nat, q: string, how: Subscribing, answer: FetchFault)
    requires Quiet(s, t)
    ensures Ends(s, [GetBegin(t, q)] + ReceiveSteps(t, how, answer), t, Got(s.b, q, how, answer).0, Got(s.b, q, how, answer).1)
  {
    var a, rest, r := GetBegin(t, q), ReceiveSteps(t, how, answer), Got(s.b, q, how, answer);
    if q in s.b.queues {
      StepStaysCoherent(s, a);
      ReceiveIsItsSteps(Apply(s, a), t, q, s.b.queues[q], how, answer);
      EndsLater(s, a, rest, r.0, r.1);
    } else {
      EndsAtOnce(s, a, rest, s.b, ErrNotExist);
    }
  }

  function EmptySteps(t: nat, fault: bool): seq<Action> { [DrainCount(t)] + [Purge(t, fault)] }

  function AfterPurging(b: Backend, q: string, fault: bool): Backend {
    if !fault && StreamName(q) in b.js then b.(js := AfterPurge(b.js, StreamName(q))) else b
  }

  lemma PurgeEnds(s: State, t: nat, q: string, k: nat, n: nat, fault: bool)
    requires Coherent(s) && OpOf(s, t) == DrainReady(q, k, n)
    ensures Ends(s, [Purge(t, fault)], t, AfterPurging(s.b, q, fault),
                 if !fault && StreamName(q) in s.b.js then NoError else ErrBackend)
  {
    LastStepEnds(s, Purge(t, fault), AfterPurging(s.b, q, fault),
                 if !fault && StreamName(q) in s.b.js then NoError else ErrBackend);
  }

  /** The counting, if there is something to count, and the purge. */
  lemma EmptyIsItsSteps(s: State, t: nat, q: string, k: nat, n: nat, fault: bool)
    requires Coherent(s) && k < |s.b.cells|
    requires OpOf(s, t) == DrainRead(q, k, n) || OpOf(s, t) == DrainReady(q, k, n)
    ensures Ends(s, EmptySteps(t, fault), t,
                 AfterPurging(if OpOf(s, t).DrainRead? then CountDrained(s.b, k, n) else s.b, q, fault),
                 if !fault && StreamName(q) in s.b.js then NoError else ErrBackend)
  {
    var a, err := DrainCount(t), if !fault && StreamName(q) in s.b.js then NoError else ErrBackend;
    if OpOf(s, t).DrainRead? {
      StepStaysCoherent(s, a);
      PurgeEnds(Apply(s, a), t, q, k, n, fault);
      EndsLater(s, a, [Purge(t, fault)], AfterPurging(CountDrained(s.b, k, n), q, fault), err);
    } else {
      PurgeEnds(s, t, q, k, n, fault);
      SkipThenEnds(s, a, [Purge(t, fault)], t, AfterPurging(s.b, q, fault), err);
    }
  }

  function DrainRest(t: nat, infoFault: bool, purgeFault: bool): seq<Action> {
    [DrainInfo(t, infoFault)] + EmptySteps(t, purgeFault)
  }

  lemma DrainRestIsItsSteps(s: State, t: nat, q: string, infoFault: bool, purgeFault: bool)
    requires Coherent(s) && q in s.b.queues && OpOf(s, t) == DrainFound(q, s.b.queues[q])
    ensures Ends(s, DrainRest(t, infoFault, purgeFault), t,
                 Drained(s.b, q, infoFault, purgeFault).0, Drained(s.b, q, infoFault, purgeFault).1)
  {
    var a, k, r := DrainInfo(t, infoFault), s.b.queues[q], Drained(s.b, q, infoFault, purgeFault);
    StepStaysCoherent(s, a);
    EmptyIsItsSteps(Apply(s, a), t, q, k, if NextOp(s, a).DrainRead? then NextOp(s, a).msgs else 0, purgeFault);
    EndsLater(s, a, EmptySteps(t, purgeFault), r.0, r.1);
  }

  lemma {:induction false} DrainIsItsSteps(s: State, t: nat, q: string, infoFault: bool, purgeFault: bool)
    requires Quiet(s, t)
    ensures Ends(s, [DrainBegin(t, q)] + DrainRest(t, infoFault, purgeFault), t,
                 Drained(s.b, q, infoFault, purgeFault).0, Drained(s.b, q, infoFault, purgeFault).1)
  {
    var a, rest, r := DrainBegin(t, q), DrainRest(t, infoFault, purgeFault), Drained(s.b, q, infoFault, purgeFault);
    if q in s.b.queues {
      StepStaysCoherent(s, a);
      DrainRestIsItsSteps(Apply(s, a), t, q, infoFault, purgeFault);
      EndsLater(s, a, rest, r.0, r.1);
    } else {
      EndsAtOnce(s, a, rest, s.b, ErrNotExist);
    }
  }

  // ---------- Stats ----------

  /** What a stats call has gathered, without what was in flight at its reads. */
  function Reported(acc: seq<Seen>): seq<Stat> {
    seq(|acc|, i requires 0 <= i < |acc| => acc[i].stat)
  }

  lemma ReportedSnoc(acc: seq<Seen>, e: Seen)
    ensures Reported(acc + [e]) == Reported(acc) + [e.stat]
  {
  }

  /** A stats call between two queues. */
  ghost predicate Gathered(s: State, t: nat, b: Backend, todo: set<string>, entries: seq<Stat>) {
    && Coherent(s) && s.b == b
    && OpOf(s, t).StatsNext? && OpOf(s, t).todo == todo && Reported(OpOf(s, t).acc) == entries
  }

  /** Reading one queue's entry. */
  function VisitSteps(t: nat, q: string, fault: bool): seq<Action> {
    [StatsInfo(t, q, fault)] + LoadSteps(t)
  }

  function LoadSteps(t: nat): seq<Action> { [StatsLoadEnq(t)] + [StatsLoadDeq(t)] + [StatsLoadDrained(t)] }

  function WalkSteps(t: nat, order: seq<string>, faults: set<string>): seq<Action> {
    if order == [] then []
    else WalkSteps(t, order[..|order| - 1], faults) + VisitSteps(t, order[|order| - 1], order[|order| - 1] in faults)
  }

  lemma LoadsAreTheirSteps(s: State, t: nat) returns (s': State)
    requires Coherent(s) && OpOf(s, t).StatsDepth?
    ensures Goes(s, LoadSteps(t), s', Pending)
    ensures OpOf(s, t).cell < |s.b.cells|
    ensures var op, c := OpOf(s, t), s.b.cells[OpOf(s, t).cell];
      Gathered(s', t, s.b, op.todo, Reported(op.acc) + [Stat(op.q, op.depth, c.enq, c.deq, c.drained)])
  {
    assert CoherentOp(s.b, s.ops[t]);
    var a, b, c := StatsLoadEnq(t), StatsLoadDeq(t), StatsLoadDrained(t);
    One(s, a);
    var s1 := Apply(s, a);
    GoesOneMore(s, [a], s1, Pending, b);
    var s2 := Apply(s1, b);
    GoesOneMore(s, [a] + [b], s2, Pending, c);
    s' := Apply(s2, c);
    var acc := OpOf(s', t).acc;
    ReportedSnoc(OpOf(s, t).acc, acc[|acc| - 1]);
  }

  lemma VisitIsItsSteps(s: State, t: nat, q: string, fault: bool, todo: set<string>, entries: seq<Stat>) returns (s': State)
    requires Gathered(s, t, s.b, todo, entries) && q in todo && q in s.b.queues
    ensures Goes(s, VisitSteps(t, q, fault), s', Pending)
    ensures Gathered(s', t, s.b, todo - {q}, entries + (if !fault && StreamName(q) in s.b.js then [StatOf(s.b, q)] else []))
  {
    var a := StatsInfo(t, q, fault);
    StepStaysCoherent(s, a);
    if !fault && StreamName(q) in s.b.js {
      s' := LoadsAreTheirSteps(Apply(s, a), t);
    } else {
      s' := Apply(s, a);
      NothingToLoad(s', t);
      assert entries + [] == entries;
    }
    FirstThen(s, a, LoadSteps(t), s', Pending);
  }

  lemma NothingToLoad(s: State, t: nat)
    requires Coherent(s) && OpOf(s, t).StatsNext?
    ensures Goes(s, LoadSteps(t), s, Pending)
  {
    AllPassedOver(s, LoadSteps(t));
  }

  function Elements(order: seq<string>): set<string> { set q | q in order }

  lemma ElementsSnoc(order: seq<string>, q: string, todo: set<string>)
    ensures todo - Elements(order) - {q} == todo - Elements(order + [q])
  {
  }

  ghost predicate EachOnce(order: seq<string>, todo: set<string>) {
    && (forall i, j :: 0 <= i < j < |order| ==> order[i] != order[j])
    && (forall i :: 0 <= i < |order| ==> order[i] in todo)
  }

  lemma WalkSnoc(t: nat, front: seq<string>, q: string, faults: set<string>)
    ensures WalkSteps(t, front + [q], faults) == WalkSteps(t, front, faults) + VisitSteps(t, q, q in faults)
  {
    assert (front + [q])[..|front|] == front;
  }

  lemma {:induction false} WalkIsItsSteps(s: State, t: nat, order: seq<string>, faults: set<string>, todo: set<string>) returns (s': State)
    requires Gathered(s, t, s.b, todo, []) && AllRegistered(s.b, order) && EachOnce(order, todo)
    ensures Goes(s, WalkSteps(t, order, faults), s', Pending)
    ensures Gathered(s', t, s.b, todo - Elements(order), StatsOf(s.b, order, faults))
  {
    if order == [] {
      s' := s;
      assert todo - Elements(order) == todo;
    } else {
      var front, q := order[..|order| - 1], order[|order| - 1];
      var s1 := WalkIsItsSteps(s, t, front, faults, todo);
      s' := VisitIsItsSteps(s1, t, q, q in faults, todo - Elements(front), StatsOf(s.b, front, faults));
      GoesOn(s, WalkSteps(t, front, faults), s1, Pending, VisitSteps(t, q, q in faults), s', Pending);
      ElementsSnoc(front, q, todo);
      WalkSnoc(t, front, q, faults);
      assert order == front + [q];
    }
  }

  /** Alone, a stats call that walks the registry in any order ends with the entries that the
      backend's method reports in that order, and changes nothing. */
  lemma {:induction false} StatsIsItsSteps(s: State, t: nat, order: seq<string>, faults: set<string>)
    requires Quiet(s, t) && Enumerates(order, s.b.queues.Keys) && AllRegistered(s.b, order)
    ensures var gathered := Alone(s, [StatsBegin(t)] + WalkSteps(t, order, faults));
      && Gathered(gathered, t, s.b, {}, StatsOf(s.b, order, faults))
      && Enabled(gathered, StatsEnd(t)) && Apply(gathered, StatsEnd(t)).b == s.b
  {
    var a := StatsBegin(t);
    StepStaysCoherent(s, a);
    var s' := WalkIsItsSteps(Apply(s, a), t, order, faults, s.b.queues.Keys);
    FirstThen(s, a, WalkSteps(t, order, faults), s', Pending);
    assert s.b.queues.Keys - Elements(order) == {};
  }
}
