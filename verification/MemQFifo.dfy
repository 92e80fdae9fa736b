/** One caller and one queue: whatever it calls, in whatever order, and whatever fails, the backend
    answers like a list from which a get takes the head. The list knows nothing of streams, cursors
    or purge marks. */
module MemQFifo {
  import opened JetStream
  import opened NatsBackend

  /** A call on the queue, with how the JetStream calls it makes go. */
  datatype Call =
    | Put(body: string, fault: bool, idFault: bool)
    | Get(wish: BindResult, retryFault: bool, fetch: FetchFault, idFault: bool)
    | Drain(infoFault: bool, purgeFault: bool)

  datatype Answer = Answer(err: Error, reply: Reply)

  // ---------- The list ----------

  /** The get reaches a stream: its own, or the one with its subject if its consumer is lost. */
  predicate Reaches(c: Call)
    requires c.Get?
  {
    c.wish == Bound || (c.wish == ConsumerNotFound && !c.retryFault)
  }

  function After(waiting: seq<string>, c: Call): seq<string> {
    match c
    case Put(body, fault, _) => if fault then waiting else waiting + [body]
    case Get(_, _, fetch, _) => if Reaches(c) && fetch == NoFault && waiting != [] then waiting[1..] else waiting
    case Drain(_, purgeFault) => if purgeFault then waiting else []
  }

  function AnswerTo(waiting: seq<string>, c: Call): Answer {
    match c
    case Put(_, fault, idFault) => Answer(if fault then ErrBackend else if idFault then ErrNoID else NoError, Nothing)
    case Get(_, _, fetch, idFault) =>
      if !Reaches(c) || fetch == Failed then Answer(ErrBackend, Nothing)
      else if fetch == TimedOut || waiting == [] then Answer(ErrEmptyQueue, Nothing)
      else Answer(NoError, if idFault then Nothing else Body(waiting[0]))
    case Drain(_, purgeFault) => Answer(if purgeFault then ErrBackend else NoError, Nothing)
  }

  /** What is waiting after the calls. */
  function Left(waiting: seq<string>, calls: seq<Call>): seq<string> {
    if calls == [] then waiting else After(Left(waiting, calls[..|calls| - 1]), calls[|calls| - 1])
  }

  function Answers(waiting: seq<string>, calls: seq<Call>): (answers: seq<Answer>)
    ensures |answers| == |calls|
  {
    if calls == [] then []
    else
      var front, last := calls[..|calls| - 1], calls[|calls| - 1];
      Answers(waiting, front) + [AnswerTo(Left(waiting, front), last)]
  }

  lemma OneMore(waiting: seq<string>, calls: seq<Call>, i: nat)
    requires i < |calls|
    ensures Left(waiting, calls[..i + 1]) == After(Left(waiting, calls[..i]), calls[i])
    ensures Answers(waiting, calls[..i + 1]) == Answers(waiting, calls[..i]) + [AnswerTo(Left(waiting, calls[..i]), calls[i])]
  {
    assert calls[..i + 1][..i] == calls[..i];
  }

  // ---------- The backend holds such a list ----------

  /** The queue is registered, its stream is the only one with its subject, and what is waiting is
      what the queue's consumer is not past. */
  ghost predicate Holds(b: Backend, q: string, waiting: seq<string>) {
    && q in b.queues
    && StreamName(q) in b.js
    && (forall n :: n in b.js ==> (b.js[n].subject == Subject(q) <==> n == StreamName(q)))
    && StreamHolds(b.js[StreamName(q)], Durable(q), waiting)
  }

  ghost predicate StreamHolds(st: Stream, d: string, waiting: seq<string>) {
    exists k: nat :: k <= |st.log| && IsNext(st, d, k) && waiting == st.log[k..]
  }

  lemma PublishHolds(st: Stream, d: string, waiting: seq<string>, body: string)
    requires StreamHolds(st, d, waiting)
    ensures StreamHolds(st.(log := st.log + [body]), d, waiting + [body])
  {
    var k: nat :| k <= |st.log| && IsNext(st, d, k) && waiting == st.log[k..];
    var st' := st.(log := st.log + [body]);
    NextIsNext(st, d, k);
    NextIsNext(st', d, k);
    assert waiting + [body] == st'.log[k..];
  }

  lemma PurgeHolds(st: Stream, d: string, waiting: seq<string>)
    requires StreamHolds(st, d, waiting)
    ensures StreamHolds(st.(purged := |st.log|), d, [])
  {
    var k: nat :| k <= |st.log| && IsNext(st, d, k) && waiting == st.log[k..];
    var st' := st.(purged := |st.log|);
    NextIsNext(st, d, k);
    NextIsNext(st', d, |st.log|);
    assert st'.log[|st.log|..] == [];
  }

  lemma SubscribeHolds(js: Store, name: string, d: string, waiting: seq<string>)
    requires name in js && StreamHolds(js[name], d, waiting)
    ensures StreamHolds(AfterSubscribe(js, name, d)[name], d, waiting)
  {
    var k: nat :| k <= |js[name].log| && IsNext(js[name], d, k) && waiting == js[name].log[k..];
    SubscribedNext(js, name, d, k);
  }

  lemma FetchHolds(st: Stream, d: string, waiting: seq<string>)
    requires StreamHolds(st, d, waiting)
    ensures NextIndex(st, d) < |st.log| <==> waiting != []
    ensures waiting != [] ==> StreamHolds(st.(cursors := st.cursors[d := NextIndex(st, d) + 1]), d, waiting[1..])
  {
    var k: nat :| k <= |st.log| && IsNext(st, d, k) && waiting == st.log[k..];
    NextIsNext(st, d, k);
    if waiting != [] {
      CursorMoves(st, d, k, waiting);
    }
  }

  lemma CursorMoves(st: Stream, d: string, k: nat, waiting: seq<string>)
    requires k < |st.log| && IsNext(st, d, k) && waiting == st.log[k..]
    ensures StreamHolds(st.(cursors := st.cursors[d := k + 1]), d, waiting[1..])
  {
    var st' := st.(cursors := st.cursors[d := k + 1]);
    NextIsNext(st, d, k);
    NextIsNext(st', d, k + 1);
    assert waiting[1..] == st'.log[k + 1..];
  }

  /** A delivery takes the head. */
  lemma DeliveryHolds(js: Store, js': Store, q: string, name: string, body: string, waiting: seq<string>)
    requires name in js && StreamHolds(js[name], Durable(q), waiting) && Delivers(js, js', q, name, body)
    ensures waiting != [] && body == waiting[0]
    ensures name in js' && StreamHolds(js'[name], Durable(q), waiting[1..])
    ensures js' == js[name := js'[name]] && js'[name].subject == js[name].subject
  {
    var st, d := js[name], Durable(q);
    var k: nat :| k < |st.log| && IsNext(st, d, k) && body == st.log[k] && js' == js[name := st.(cursors := st.cursors[d := k + 1])];
    var k': nat :| k' <= |st.log| && IsNext(st, d, k') && waiting == st.log[k'..];
    NextIsNext(st, d, k);
    NextIsNext(st, d, k');
    CursorMoves(st, d, k, waiting);
  }

  /** The registry stays, and so does every stream but the queue's. */
  ghost predicate Touches(b: Backend, b': Backend, q: string) {
    b'.queues == b.queues && StreamName(q) in b'.js && b'.js == b.js[StreamName(q) := b'.js[StreamName(q)]]
  }

  lemma HoldsAgain(b: Backend, b': Backend, q: string, waiting: seq<string>, waiting': seq<string>)
    requires Holds(b, q, waiting) && Touches(b, b', q)
    requires b'.js[StreamName(q)].subject == Subject(q)
    requires StreamHolds(b'.js[StreamName(q)], Durable(q), waiting')
    ensures Holds(b', q, waiting')
  {
  }

  lemma ReachesIff(js: Store, q: string, c: Call, how: Subscribing)
    requires c.Get? && Subscribes(js, q, c.wish, c.retryFault, how)
    requires StreamName(q) in js && forall n :: n in js ==> (js[n].subject == Subject(q) <==> n == StreamName(q))
    ensures CanSubscribe(js, q, how) <==> Reaches(c)
    ensures CanSubscribe(js, q, how) ==> StreamFor(q, how) == StreamName(q)
  {
    assert SubjectTaken(js, Subject(q));
  }

  /** A get that reaches the stream: it is subscribed, and a message is fetched if there is one. */
  lemma ReceivedHolds(js: Store, q: string, waiting: seq<string>, how: Subscribing, fetch: FetchFault, js': Store, err: Error)
    requires CanSubscribe(js, q, how) && StreamFor(q, how) == StreamName(q)
    requires StreamHolds(js[StreamName(q)], Durable(q), waiting)
    requires (js', err) == Received(js, q, how, fetch)
    ensures err == (if fetch == Failed then ErrBackend else if fetch == TimedOut || waiting == [] then ErrEmptyQueue else NoError)
    ensures StreamName(q) in js' && js' == js[StreamName(q) := js'[StreamName(q)]]
    ensures js'[StreamName(q)].subject == Subject(q)
    ensures StreamHolds(js'[StreamName(q)], Durable(q), if err == NoError then waiting[1..] else waiting)
  {
    var n, d := StreamName(q), Durable(q);
    SubscribeHolds(js, n, d, waiting);
    FetchHolds(AfterSubscribe(js, n, d)[n], d, waiting);
  }

  lemma GetHolds(b: Backend, q: string, waiting: seq<string>, c: Call, how: Subscribing, b': Backend, err: Error)
    requires WellFormed(b) && Holds(b, q, waiting)
    requires c.Get? && Subscribes(b.js, q, c.wish, c.retryFault, how)
    requires (b', err) == Got(b, q, how, c.fetch)
    ensures err == AnswerTo(waiting, c).err && Holds(b', q, After(waiting, c)) && Touches(b, b', q)
  {
    ReachesIff(b.js, q, c, how);
    if Reaches(c) {
      var (js', e) := Received(b.js, q, how, c.fetch);
      ReceivedHolds(b.js, q, waiting, how, c.fetch, js', e);
      HoldsAgain(b, b', q, waiting, After(waiting, c));
    }
  }

  lemma GetAnswers(js: Store, js': Store, q: string, waiting: seq<string>, c: Call, how: Subscribing, body: string)
    requires StreamName(q) in js && forall n :: n in js ==> (js[n].subject == Subject(q) <==> n == StreamName(q))
    requires StreamHolds(js[StreamName(q)], Durable(q), waiting)
    requires c.Get? && Subscribes(js, q, c.wish, c.retryFault, how) && Reaches(c)
    requires Delivers(js, js', q, StreamFor(q, how), body)
    ensures waiting != [] && body == waiting[0]
  {
    ReachesIff(js, q, c, how);
    DeliveryHolds(js, js', q, StreamName(q), body, waiting);
  }

  lemma GetServed(b: Backend, q: string, waiting: seq<string>, c: Call, how: Subscribing, b': Backend, err: Error, reply: Reply)
    requires WellFormed(b) && Holds(b, q, waiting)
    requires c.Get? && Subscribes(b.js, q, c.wish, c.retryFault, how)
    requires (b', err) == Got(b, q, how, c.fetch)
    requires reply.Body? <==> err == NoError && !c.idFault
    requires reply.Body? ==> Delivers(b.js, b'.js, q, StreamFor(q, how), reply.body)
    ensures Holds(b', q, After(waiting, c)) && Touches(b, b', q) && Answer(err, reply) == AnswerTo(waiting, c)
  {
    GetHolds(b, q, waiting, c, how, b', err);
    if reply.Body? {
      GetAnswers(b.js, b'.js, q, waiting, c, how, reply.body);
    }
  }

  lemma PutHolds(b: Backend, q: string, waiting: seq<string>, c: Call, stream: string, b': Backend)
    requires WellFormed(b) && Holds(b, q, waiting) && c.Put? && !c.fault
    requires stream in b.js && b.js[stream].subject == Subject(q)
    requires b' == CountEnq(b.(js := AfterPublish(b.js, stream, c.body)), b.queues[q])
    ensures Holds(b', q, After(waiting, c)) && Touches(b, b', q)
  {
    PublishHolds(b.js[StreamName(q)], Durable(q), waiting, c.body);
    HoldsAgain(b, b', q, waiting, After(waiting, c));
  }

  lemma DrainHolds(b: Backend, q: string, waiting: seq<string>, c: Call, b': Backend, err: Error)
    requires WellFormed(b) && Holds(b, q, waiting) && c.Drain?
    requires (b', err) == Drained(b, q, c.infoFault, c.purgeFault)
    ensures err == AnswerTo(waiting, c).err && Holds(b', q, After(waiting, c)) && Touches(b, b', q)
  {
    PurgeHolds(b.js[StreamName(q)], Durable(q), waiting);
    HoldsAgain(b, b', q, waiting, After(waiting, c));
  }

  // ---------- The calls, on the backend itself ----------

  method PutOne(b: NatsBackend, q: string, ghost waiting: seq<string>, c: Call) returns (answer: Answer)
    requires b.Valid() && Holds(b.View(), q, waiting) && c.Put?
    modifies b.js, b.allStats
    ensures b.Valid() && Holds(b.View(), q, After(waiting, c)) && answer == AnswerTo(waiting, c)
    ensures Touches(old(b.View()), b.View(), q)
  {
    ghost var was := b.View();
    var err, stream := b.PutMessage(q, c.body, c.fault, c.idFault);
    answer := Answer(err, Nothing);
    if err == NoError || err == ErrNoID {
      PutHolds(was, q, waiting, c, stream, b.View());
    }
    assert SubjectTaken(was.js, Subject(q));
  }

  method GetOne(b: NatsBackend, q: string, ghost waiting: seq<string>, c: Call) returns (answer: Answer)
    requires b.Valid() && Holds(b.View(), q, waiting) && c.Get?
    modifies b.js, b.allStats
    ensures b.Valid() && Holds(b.View(), q, After(waiting, c)) && answer == AnswerTo(waiting, c)
    ensures Touches(old(b.View()), b.View(), q)
  {
    ghost var was := b.View();
    var err, reply, how := b.GetMessage(q, c.wish, c.retryFault, c.fetch, c.idFault);
    answer := Answer(err, reply);
    GetServed(was, q, waiting, c, how, b.View(), err, reply);
  }

  method DrainOne(b: NatsBackend, q: string, ghost waiting: seq<string>, c: Call) returns (answer: Answer)
    requires b.Valid() && Holds(b.View(), q, waiting) && c.Drain?
    modifies b.js, b.allStats
    ensures b.Valid() && Holds(b.View(), q, After(waiting, c)) && answer == AnswerTo(waiting, c)
    ensures Touches(old(b.View()), b.View(), q)
  {
    ghost var was := b.View();
    var err := b.DrainQueue(q, c.infoFault, c.purgeFault);
    answer := Answer(err, Nothing);
    DrainHolds(was, q, waiting, c, b.View(), err);
  }

  method ServeOne(b: NatsBackend, q: string, ghost waiting: seq<string>, c: Call) returns (answer: Answer)
    requires b.Valid() && Holds(b.View(), q, waiting)
    modifies b.js, b.allStats
    ensures b.Valid() && Holds(b.View(), q, After(waiting, c)) && answer == AnswerTo(waiting, c)
    ensures Touches(old(b.View()), b.View(), q)
  {
    match c
    case Put(_, _, _) => answer := PutOne(b, q, waiting, c);
    case Get(_, _, _, _) => answer := GetOne(b, q, waiting, c);
    case Drain(_, _) => answer := DrainOne(b, q, waiting, c);
  }

  /** Whatever is called and whatever fails, the backend answers as the list does. */
  method Serve(b: NatsBackend, q: string, ghost waiting: seq<string>, calls: seq<Call>) returns (answers: seq<Answer>)
    requires b.Valid() && Holds(b.View(), q, waiting)
    modifies b.js, b.allStats
    ensures b.Valid() && Holds(b.View(), q, Left(waiting, calls))
    ensures answers == Answers(waiting, calls)
  {
    answers := [];
    for i := 0 to |calls|
      invariant b.Valid() && Holds(b.View(), q, Left(waiting, calls[..i]))
      invariant answers == Answers(waiting, calls[..i])
    {
      OneMore(waiting, calls, i);
      var answer := ServeOne(b, q, Left(waiting, calls[..i]), calls[i]);
      answers := answers + [answer];
    }
    assert calls[..|calls|] == calls;
  }

  /** A new backend, a new queue under a name and subject nobody uses, and any calls on it: they
      are answered as by an empty list. */
  method ServeFresh(js: Context, q: string, calls: seq<Call>) returns (answers: seq<Answer>)
    requires q != "" && StreamName(q) !in js.streams && !SubjectTaken(js.streams, Subject(q))
    modifies js
    ensures answers == Answers([], calls)
  {
    var b := new NatsBackend(js);
    var err := b.CreateQueue(q, true, false);
    assert fresh(b.allStats) by {
      assert b.allStats == b.allStats[0..];
    }
    FreshHolds(js.streams[StreamName(q)], Durable(q));
    assert forall n :: n in js.streams ==> (js.streams[n].subject == Subject(q) <==> n == StreamName(q));
    answers := Serve(b, q, [], calls);
  }

  lemma FreshHolds(st: Stream, d: string)
    requires st.log == [] && st.purged == 0 && st.cursors == map[]
    ensures StreamHolds(st, d, [])
  {
    NextIsNext(st, d, 0);
    assert st.log[0..] == [];
  }

  // ---------- What the list answers ----------

  /** The bodies stored, in order. */
  function Stored(calls: seq<Call>): seq<string> {
    if calls == [] then []
    else
      var front, last := Stored(calls[..|calls| - 1]), calls[|calls| - 1];
      if last.Put? && !last.fault then front + [last.body] else front
  }

  /** The bodies answered, in order. */
  function Delivered(answers: seq<Answer>): seq<string> {
    if answers == [] then []
    else
      var front, last := Delivered(answers[..|answers| - 1]), answers[|answers| - 1];
      if last.reply.Body? then front + [last.reply.body] else front
  }

  lemma DeliveredSnoc(answers: seq<Answer>, a: Answer)
    ensures Delivered(answers + [a]) == Delivered(answers) + (if a.reply.Body? then [a.reply.body] else [])
  {
    assert (answers + [a])[..|answers|] == answers;
  }

  /** No purge takes effect, and every message fetched gets an id for its reply. */
  predicate Undrained(calls: seq<Call>) {
    forall i :: 0 <= i < |calls| ==> (calls[i].Drain? ==> calls[i].purgeFault) && (calls[i].Get? ==> !calls[i].idFault)
  }

  /** On a new queue nothing is purged from, what was answered and then what is left is what was
      stored: the k-th body answered is the k-th body stored, and none is left out. */
  lemma {:induction false} FirstInFirstOut(calls: seq<Call>)
    requires Undrained(calls)
    ensures Delivered(Answers([], calls)) + Left([], calls) == Stored(calls)
  {
    if calls != [] {
      var front, c := calls[..|calls| - 1], calls[|calls| - 1];
      var waiting := Left([], front);
      FirstInFirstOut(front);
      DeliveredSnoc(Answers([], front), AnswerTo(waiting, c));
      OneCall(Delivered(Answers([], front)), waiting, c, Stored(front));
    }
  }

  lemma OneCall(delivered: seq<string>, waiting: seq<string>, c: Call, stored: seq<string>)
    requires delivered + waiting == stored && Undrained([c])
    ensures var reply := AnswerTo(waiting, c).reply;
      delivered + (if reply.Body? then [reply.body] else []) + After(waiting, c)
      == stored + (if c.Put? && !c.fault then [c.body] else [])
  {
    assert [c][0] == c;
    if c.Get? && waiting != [] {
      assert waiting == [waiting[0]] + waiting[1..];
    } else if c.Put? {
      assert delivered + (waiting + [c.body]) == delivered + waiting + [c.body];
    }
  }

  /** A get that nothing goes wrong with answers "empty" exactly if as many bodies were answered
      as were stored, and else the first one not answered yet. */
  lemma {:induction false} NextGetAnswers(calls: seq<Call>, get: Call)
    requires Undrained(calls) && get.Get? && Reaches(get) && get.fetch == NoFault && !get.idFault
    ensures var stored, n := Stored(calls), |Delivered(Answers([], calls))|;
      && n <= |stored|
      && AnswerTo(Left([], calls), get) == if n == |stored| then Answer(ErrEmptyQueue, Nothing) else Answer(NoError, Body(stored[n]))
  {
    FirstInFirstOut(calls);
    Joined(Delivered(Answers([], calls)), Left([], calls), Stored(calls));
  }

  lemma Joined(a: seq<string>, b: seq<string>, c: seq<string>)
    requires a + b == c
    ensures |a| <= |c| && (b == [] <==> |a| == |c|) && (b != [] ==> b[0] == c[|a|])
  {
  }

  lemma {:induction false} LeftAppend(waiting: seq<string>, before: seq<Call>, calls: seq<Call>)
    ensures Left(waiting, before + calls) == Left(Left(waiting, before), calls)
    ensures Answers(waiting, before + calls) == Answers(waiting, before) + Answers(Left(waiting, before), calls)
  {
    if calls == [] {
      assert before + calls == before;
    } else {
      var front, c := calls[..|calls| - 1], calls[|calls| - 1];
      LeftAppend(waiting, before, front);
      assert before + calls == before + front + [c];
      assert (before + calls)[..|before + calls| - 1] == before + front;
    }
  }

  /** After a purge that takes effect everything is answered as on a new queue: nothing put before
      it is ever answered again, and the first body put after it comes next. */
  lemma {:induction false} DrainForgets(before: seq<Call>, drain: Call, calls: seq<Call>)
    requires drain.Drain? && !drain.purgeFault
    ensures Answers([], before + [drain] + calls) == Answers([], before) + [Answer(NoError, Nothing)] + Answers([], calls)
  {
    LeftAppend([], before + [drain], calls);
    LeftAppend([], before, [drain]);
    assert Answers(Left([], before), [drain]) == [AnswerTo(Left([], before), drain)] by {
      assert [drain][..0] == [];
    }
    assert Left([], before + [drain]) == [] by {
      assert (before + [drain])[..|before|] == before;
    }
  }
}
