/** The queue backend: a registry of queues with counters, over JetStream streams. */
module NatsBackend {
  import opened JetStream
  import opened Text

  datatype Error = NoError | ErrEmptyQueue | ErrNotExist | ErrAlreadyExist | ErrEmptyName | ErrBackend | ErrNoID

  function StreamName(q: string): string { "MEMQ_" + Upper(q) }

  function Subject(q: string): string { "memq." + q }

  function Durable(q: string): string { "MEMQ_CONS_" + Upper(q) }

  /** Two queues share a stream name exactly if their names are the same up to case. */
  lemma StreamNamesMeet(p: string, q: string)
    ensures StreamName(p) == StreamName(q) <==> SameText(p, q)
    ensures Durable(p) == Durable(q) <==> SameText(p, q)
  {
    CasesMerge(p, q);
    assert StreamName(p)[5..] == Upper(p) && StreamName(q)[5..] == Upper(q);
    assert Durable(p)[10..] == Upper(p) && Durable(q)[10..] == Upper(q);
  }

  // ---------- State as a value ----------

  /** The counters of one registration of a queue. A queue that is deleted and created again gets
      a new cell; calls that looked the old one up keep using it. */
  datatype Cell = Cell(name: string, enq: nat, deq: nat, drained: nat)

  datatype Backend = Backend(js: Store, queues: map<string, nat>, cells: seq<Cell>)

  predicate WellFormed(b: Backend) {
    forall q :: q in b.queues ==> b.queues[q] < |b.cells| && b.cells[b.queues[q]].name == q
  }

  function Register(b: Backend, q: string): Backend {
    b.(queues := b.queues[q := |b.cells|], cells := b.cells + [Cell(q, 0, 0, 0)])
  }

  function CountEnq(b: Backend, k: nat): Backend
    requires k < |b.cells|
  {
    b.(cells := b.cells[k := b.cells[k].(enq := b.cells[k].enq + 1)])
  }

  function CountDeq(b: Backend, k: nat): Backend
    requires k < |b.cells|
  {
    b.(cells := b.cells[k := b.cells[k].(deq := b.cells[k].deq + 1)])
  }

  function CountDrained(b: Backend, k: nat, n: nat): Backend
    requires k < |b.cells|
  {
    b.(cells := b.cells[k := b.cells[k].(drained := b.cells[k].drained + n)])
  }

  /** How a get finds a stream: it binds to its own, it falls back on the stream that carries its
      subject because the consumer is lost, or neither works. */
  datatype Subscribing = Binds | FallsBack(stream: string) | SubscribeFails

  function StreamFor(q: string, how: Subscribing): string {
    if how.FallsBack? then how.stream else StreamName(q)
  }

  predicate CanSubscribe(js: Store, q: string, how: Subscribing) {
    !how.SubscribeFails? && StreamFor(q, how) in js && js[StreamFor(q, how)].subject == Subject(q)
  }

  /** What the answer to the first subscription leads to: its own stream, the stream that carries the
      subject if the consumer is lost, or nothing. */
  ghost predicate Subscribes(js: Store, q: string, wish: BindResult, retryFault: bool, how: Subscribing) {
    match wish
    case Bound => how == Binds
    case ConsumerNotFound => CanSubscribe(js, q, how) <==> !retryFault && SubjectTaken(js, Subject(q))
    case BindError => !CanSubscribe(js, q, how)
  }

  /** How a fetch can go wrong: no answer in time, or an error. */
  datatype FetchFault = NoFault | TimedOut | Failed

  /** What a get hands back besides its error. */
  datatype Reply = Nothing | Body(body: string)

  datatype Stat = Stat(name: string, depth: nat, enqueued: nat, dequeued: nat, drained: nat)

  // ---------- The backend as an object ----------

  class QStats {
    ghost const name: string
    var enq: nat
    var deq: nat
    var drained: nat

    constructor (ghost name: string)
      ensures this.name == name && enq == 0 && deq == 0 && drained == 0
    {
      this.name := name;
      enq, deq, drained := 0, 0, 0;
    }
  }

  class NatsBackend {
    const js: Context
    var queues: map<string, QStats>
    ghost var allStats: seq<QStats>
    ghost var index: map<string, nat>

    ghost predicate Valid() reads this {
      && (forall i, j :: 0 <= i < j < |allStats| ==> allStats[i] != allStats[j])
      && index.Keys == queues.Keys
      && (forall q :: q in queues ==> index[q] < |allStats| && queues[q] == allStats[index[q]] && queues[q].name == q)
    }

    ghost function View(): (b: Backend)
      reads this, js, allStats
      requires Valid()
      ensures WellFormed(b)
    {
      Backend(js.streams, index,
              seq(|allStats|, i requires 0 <= i < |allStats| reads this, allStats =>
                Cell(allStats[i].name, allStats[i].enq, allStats[i].deq, allStats[i].drained)))
    }

    constructor (js: Context)
      ensures Valid() && this.js == js && View() == Backend(js.streams, map[], [])
      ensures allStats == []
    {
      this.js := js;
      queues, allStats, index := map[], [], map[];
    }

    /** The critical section under the write lock. Success and "already exists" both leave the
        name registered; every other error leaves everything as it was. */
    method CreateQueue(name: string, same: bool, fault: bool) returns (err: Error)
      requires Valid()
      modifies this, js
      ensures Valid()
      ensures err == NoError || err == ErrAlreadyExist ==> name in queues
      ensures err != NoError && err != ErrAlreadyExist ==> View() == old(View())
      ensures View() == Created(old(View()), name, same, fault).0 && err == Created(old(View()), name, same, fault).1
      ensures old(allStats) <= allStats && fresh(allStats[|old(allStats)|..])
    {
      if name == "" {
        return ErrEmptyName;
      }
      if name in queues {
        return ErrAlreadyExist;
      }
      err := ObtainStream(name, same, fault);
    }

    /** Makes or adopts the stream of a name that is not registered, and registers it. */
    method ObtainStream(name: string, same: bool, fault: bool) returns (err: Error)
      requires Valid() && name !in queues
      modifies this, js
      ensures Valid()
      ensures View() == Obtained(old(View()), name, same, fault).0 && err == Obtained(old(View()), name, same, fault).1
      ensures old(allStats) <= allStats && fresh(allStats[|old(allStats)|..])
    {
      var r := js.AddStream(StreamName(name), Subject(name), same, fault);
      if r == Refused {
        return ErrBackend;
      }
      RegisterQueue(name);
      err := if r == NameInUse then ErrAlreadyExist else NoError;
    }

    /** A fresh set of counters under the name. */
    method RegisterQueue(name: string)
      requires Valid()
      modifies this
      ensures Valid() && View() == Register(old(View()), name)
      ensures |allStats| == |old(allStats)| + 1 && old(allStats) <= allStats && fresh(allStats[|old(allStats)|])
    {
      var qs := new QStats(name);
      queues := queues[name := qs];
      index := index[name := |allStats|];
      allStats := allStats + [qs];
    }

    method DeleteQueue(name: string, fault: bool) returns (err: Error)
      requires Valid()
      modifies this, js
      ensures Valid() && allStats == old(allStats)
      ensures err == NoError ==> name !in queues && StreamName(name) !in js.streams
      ensures err != NoError ==> View() == old(View())
      ensures View() == Deleted(old(View()), name, fault).0 && err == Deleted(old(View()), name, fault).1
    {
      if name == "" {
        return ErrEmptyName;
      }
      if name !in queues {
        return ErrNotExist;
      }
      var ok := js.DeleteStream(StreamName(name), fault);
      if !ok {
        return ErrBackend;
      }
      queues := queues - {name};
      index := index - {name};
      err := NoError;
    }

    /** Without interference, a drain whose two calls succeed empties the stream and counts
        exactly what it removed. */
    method DrainQueue(name: string, infoFault: bool, purgeFault: bool) returns (err: Error)
      requires Valid()
      modifies js, allStats
      ensures Valid()
      ensures err == ErrNotExist <==> name !in queues
      ensures View() == Drained(old(View()), name, infoFault, purgeFault).0 && err == Drained(old(View()), name, infoFault, purgeFault).1
    {
      if name !in queues {
        return ErrNotExist;
      }
      CountDepth(name, queues[name], index[name], infoFault);
      var ok := PurgeQueue(name, purgeFault);
      err := if ok then NoError else ErrBackend;
    }

    /** The depth, if it can be read, is added where `k` says the queue's counters are. */
    method CountDepth(name: string, qs: QStats, ghost k: nat, fault: bool)
      requires Valid() && k < |allStats| && qs == allStats[k]
      modifies qs`drained
      ensures Valid()
      ensures View() ==
        if !fault && StreamName(name) in js.streams then CountDrained(old(View()), k, Depth(js.streams[StreamName(name)]))
        else old(View())
    {
      var ok, msgs := js.StreamInfo(StreamName(name), fault);
      if ok {
        AddDrained(qs, k, msgs);
      }
    }

    /** The purge, which leaves registry and counters alone. */
    method PurgeQueue(name: string, fault: bool) returns (ok: bool)
      requires Valid()
      modifies js
      ensures Valid() && (ok <==> !fault && StreamName(name) in old(js.streams))
      ensures View() == if ok then old(View()).(js := AfterPurge(old(js.streams), StreamName(name))) else old(View())
    {
      ok := js.PurgeStream(StreamName(name), fault);
    }

    /** The atomic addition to a queue's drained counter; `k` is where its counters are. */
    method AddDrained(qs: QStats, ghost k: nat, n: nat)
      requires Valid() && k < |allStats| && qs == allStats[k]
      modifies qs`drained
      ensures Valid() && View() == CountDrained(old(View()), k, n)
    {
      qs.drained := qs.drained + n;
    }

    /** The atomic additions of one to the other two counters. */
    method AddEnqueued(qs: QStats, ghost k: nat)
      requires Valid() && k < |allStats| && qs == allStats[k]
      modifies qs`enq
      ensures Valid() && View() == CountEnq(old(View()), k)
    {
      qs.enq := qs.enq + 1;
    }

    method AddDequeued(qs: QStats, ghost k: nat)
      requires Valid() && k < |allStats| && qs == allStats[k]
      modifies qs`deq
      ensures Valid() && View() == CountDeq(old(View()), k)
    {
      qs.deq := qs.deq + 1;
    }

    /** A message that was stored is counted even if no id can be made for the reply. */
    method PutMessage(queue: string, body: string, fault: bool, idFault: bool) returns (err: Error, ghost stream: string)
      requires Valid()
      modifies js, allStats
      ensures Valid()
      ensures err == NoError || err == ErrNoID ==>
        && queue in queues && stream in old(js.streams) && old(js.streams)[stream].subject == Subject(queue)
        && View() == CountEnq(old(View()).(js := AfterPublish(old(js.streams), stream, body)), index[queue])
      ensures err != NoError && err != ErrNoID ==> View() == old(View())
      ensures err == ErrNotExist <==> queue !in queues
      ensures err == ErrBackend <==> queue in queues && (fault || !SubjectTaken(old(js.streams), Subject(queue)))
      ensures err == ErrNotExist || err == ErrBackend || err == if idFault then ErrNoID else NoError
    {
      stream := "";
      if queue !in queues {
        return ErrNotExist, "";
      }
      var ok: bool;
      ok, stream := Store(queue, queues[queue], index[queue], body, fault);
      err := if !ok then ErrBackend else if idFault then ErrNoID else NoError;
    }

    /** Publishes the body and counts it where `k` says the queue's counters are. */
    method Store(queue: string, qs: QStats, ghost k: nat, body: string, fault: bool) returns (ok: bool, ghost stream: string)
      requires Valid() && k < |allStats| && qs == allStats[k]
      modifies js, allStats
      ensures Valid()
      ensures ok <==> !fault && SubjectTaken(old(js.streams), Subject(queue))
      ensures ok ==>
        && stream in old(js.streams) && old(js.streams)[stream].subject == Subject(queue)
        && View() == CountEnq(old(View()).(js := AfterPublish(old(js.streams), stream, body)), k)
      ensures !ok ==> View() == old(View())
    {
      ok, stream := js.Publish(Subject(queue), body, fault);
      if ok {
        AddEnqueued(qs, k);
      }
    }

    /** Subscribing: bound to the queue's own stream or, if that consumer is lost, to whichever
        stream carries the subject. */
    method Subscribe(queue: string, wish: BindResult, retryFault: bool) returns (ok: bool, stream: string, ghost how: Subscribing)
      modifies js
      ensures ok <==> CanSubscribe(old(js.streams), queue, how)
      ensures ok ==> stream == StreamFor(queue, how)
      ensures js.streams == if ok then AfterSubscribe(old(js.streams), stream, Durable(queue)) else old(js.streams)
      ensures wish == Bound ==> how == Binds
      ensures wish == ConsumerNotFound ==> (ok <==> !retryFault && SubjectTaken(old(js.streams), Subject(queue)))
      ensures wish == BindError ==> !ok
    {
      stream, how := StreamName(queue), Binds;
      var r := js.BindSubscribe(StreamName(queue), Subject(queue), Durable(queue), wish);
      ok := r == Bound;
      if r != Bound {
        if r != ConsumerNotFound {
          return false, stream, if wish == Bound then Binds else SubscribeFails;
        }
        ok, stream := js.PullSubscribe(Subject(queue), Durable(queue), retryFault);
        how := if ok then FallsBack(stream) else SubscribeFails;
      }
    }

    /** The part of a get that talks to JetStream. */
    method Receive(queue: string, wish: BindResult, retryFault: bool, fetchFault: FetchFault)
      returns (err: Error, body: string, ghost how: Subscribing)
      modifies js
      ensures js.streams == Received(old(js.streams), queue, how, fetchFault).0
      ensures err == Received(old(js.streams), queue, how, fetchFault).1
      ensures wish == Bound ==> how == Binds
      ensures Subscribes(old(js.streams), queue, wish, retryFault, how)
      ensures err == NoError ==> Delivers(old(js.streams), js.streams, queue, StreamFor(queue, how), body)
    {
      body := "";
      var ok, stream;
      ok, stream, how := Subscribe(queue, wish, retryFault);
      if !ok {
        return ErrBackend, "", how;
      }
      var got: bool;
      got, body := js.Fetch(stream, Durable(queue), fetchFault != NoFault);
      if got {
        FetchedIsDelivered(old(js.streams), js.streams, queue, stream, body);
      }
      err := if got then NoError else if fetchFault == Failed then ErrBackend else ErrEmptyQueue;
    }

    /** A message comes from the queue's own durable cursor, is counted, and stays stored; if no
        id can be made for it the reply is empty, without an error. */
    method GetMessage(queue: string, wish: BindResult, retryFault: bool, fetchFault: FetchFault, idFault: bool)
      returns (err: Error, body: Reply, ghost how: Subscribing)
      requires Valid()
      modifies js, allStats
      ensures Valid()
      ensures err == ErrNotExist <==> queue !in queues
      ensures View() == Got(old(View()), queue, how, fetchFault).0
      ensures err == Got(old(View()), queue, how, fetchFault).1
      ensures wish == Bound ==> how == Binds
      ensures queue in queues ==> Subscribes(old(js.streams), queue, wish, retryFault, how)
      ensures body.Body? <==> err == NoError && !idFault
      ensures body.Body? ==> Delivers(old(js.streams), js.streams, queue, StreamFor(queue, how), body.body)
    {
      body, how := Nothing, Binds;
      if queue !in queues {
        return ErrNotExist, Nothing, Binds;
      }
      var data;
      err, data, how := Take(queue, queues[queue], index[queue], wish, retryFault, fetchFault);
      body := if err == NoError && !idFault then Body(data) else Nothing;
    }

    /** Receives one message and counts it where `k` says the queue's counters are. */
    method Take(queue: string, qs: QStats, ghost k: nat, wish: BindResult, retryFault: bool, fetchFault: FetchFault)
      returns (err: Error, body: string, ghost how: Subscribing)
      requires Valid() && k < |allStats| && qs == allStats[k]
      modifies js, allStats
      ensures Valid()
      ensures err == Received(old(js.streams), queue, how, fetchFault).1
      ensures var b := old(View()).(js := Received(old(js.streams), queue, how, fetchFault).0);
        View() == if err == NoError then CountDeq(b, k) else b
      ensures wish == Bound ==> how == Binds
      ensures Subscribes(old(js.streams), queue, wish, retryFault, how)
      ensures err == NoError ==> Delivers(old(js.streams), js.streams, queue, StreamFor(queue, how), body)
    {
      err, body, how := Receive(queue, wish, retryFault, fetchFault);
      if err == NoError {
        AddDequeued(qs, k);
      }
    }

    /** One entry for every registered queue whose stream answers, in the order in which the
        registry happens to be walked. */
    method Stats(faults: set<string>) returns (entries: seq<Stat>, ghost order: seq<string>)
      requires Valid()
      ensures Enumerates(order, queues.Keys) && AllRegistered(View(), order)
      ensures entries == StatsOf(View(), order, faults)
      ensures Enumerates(NamesOf(entries), set q | q in queues && Answers(View(), q, faults))
      ensures forall i :: 0 <= i < |entries| ==>
        HasStat(View(), entries[i].name) && entries[i] == StatOf(View(), entries[i].name)
    {
      entries, order := WalkQueues(faults);
      StatsAreExact(View(), order, faults);
      assert AnsweringOf(View(), order, faults) == (set q | q in queues && Answers(View(), q, faults));
    }

    method WalkQueues(faults: set<string>) returns (entries: seq<Stat>, ghost order: seq<string>)
      requires Valid()
      ensures Enumerates(order, queues.Keys) && AllRegistered(View(), order)
      ensures entries == StatsOf(View(), order, faults)
    {
      entries, order := [], [];
      var todo := queues.Keys;
      ghost var b := View();
      while todo != {}
        invariant todo <= queues.Keys && Enumerates(order, queues.Keys - todo)
        invariant AllRegistered(b, order)
        invariant entries == StatsOf(b, order, faults)
        decreases todo
      {
        var q :| q in todo;
        VisitOne(order, queues.Keys, todo, q);
        StatsSnoc(b, order, q, faults);
        todo := todo - {q};
        order := order + [q];
        var ok, e := ReadStat(q, faults);
        if ok {
          entries := entries + [e];
        }
      }
      assert queues.Keys - todo == queues.Keys;
    }

    /** The entry of one queue, if its stream answers. */
    method ReadStat(q: string, faults: set<string>) returns (ok: bool, e: Stat)
      requires Valid() && q in queues
      ensures ok <==> Answers(View(), q, faults)
      ensures ok ==> HasStat(View(), q) && e == StatOf(View(), q)
    {
      var depth;
      ok, depth := js.StreamInfo(StreamName(q), q in faults);
      var qs := queues[q];
      assert qs == allStats[index[q]];
      e := Stat(q, depth, qs.enq, qs.deq, qs.drained);
    }
  }

  // ---------- What a stats call reports ----------

  /** Every name of the set once. */
  ghost predicate Enumerates(order: seq<string>, names: set<string>) {
    && (forall i, j :: 0 <= i < j < |order| ==> order[i] != order[j])
    && (forall q :: q in order <==> q in names)
  }

  lemma EnumeratesSnoc(order: seq<string>, names: set<string>, q: string)
    requires Enumerates(order, names) && q !in names
    ensures Enumerates(order + [q], names + {q})
  {
  }

  lemma VisitOne(order: seq<string>, names: set<string>, todo: set<string>, q: string)
    requires Enumerates(order, names - todo) && q in todo && todo <= names
    ensures Enumerates(order + [q], names - (todo - {q}))
  {
    EnumeratesSnoc(order, names - todo, q);
    assert names - todo + {q} == names - (todo - {q});
  }

  predicate AllRegistered(b: Backend, order: seq<string>) {
    forall i :: 0 <= i < |order| ==> order[i] in b.queues
  }

  predicate HasStat(b: Backend, q: string) {
    q in b.queues && StreamName(q) in b.js
  }

  function StatOf(b: Backend, q: string): Stat
    requires WellFormed(b) && HasStat(b, q)
  {
    var c := b.cells[b.queues[q]];
    Stat(q, Depth(b.js[StreamName(q)]), c.enq, c.deq, c.drained)
  }

  function NamesOf(entries: seq<Stat>): seq<string> {
    seq(|entries|, i requires 0 <= i < |entries| => entries[i].name)
  }

  predicate Answers(b: Backend, q: string, faults: set<string>) {
    q !in faults && StreamName(q) in b.js
  }

  /** The entries of the queues whose stream answers, in this order. */
  function StatsOf(b: Backend, order: seq<string>, faults: set<string>): seq<Stat>
    requires WellFormed(b) && AllRegistered(b, order)
  {
    if order == [] then []
    else
      var front, q := order[..|order| - 1], order[|order| - 1];
      StatsOf(b, front, faults) + (if Answers(b, q, faults) then [StatOf(b, q)] else [])
  }

  lemma StatsSnoc(b: Backend, order: seq<string>, q: string, faults: set<string>)
    requires WellFormed(b) && AllRegistered(b, order) && q in b.queues
    ensures AllRegistered(b, order + [q])
    ensures StatsOf(b, order + [q], faults) == StatsOf(b, order, faults) + (if Answers(b, q, faults) then [StatOf(b, q)] else [])
  {
    assert (order + [q])[..|order|] == order;
  }

  /** The entries are those of the answering queues, each once, with its own numbers. */
  lemma {:induction false} StatsAreExact(b: Backend, order: seq<string>, faults: set<string>)
    requires WellFormed(b) && AllRegistered(b, order)
    requires forall i, j :: 0 <= i < j < |order| ==> order[i] != order[j]
    ensures Enumerates(NamesOf(StatsOf(b, order, faults)), AnsweringOf(b, order, faults))
    ensures forall i :: 0 <= i < |StatsOf(b, order, faults)| ==>
      var e := StatsOf(b, order, faults)[i]; HasStat(b, e.name) && e == StatOf(b, e.name)
  {
    if order != [] {
      var front, q := order[..|order| - 1], order[|order| - 1];
      StatsAreExact(b, front, faults);
      NamesSnoc(b, front, q, faults);
      assert order == front + [q];
    }
  }

  function AnsweringOf(b: Backend, order: seq<string>, faults: set<string>): set<string> {
    set q | q in order && Answers(b, q, faults)
  }

  lemma AnsweringSnoc(b: Backend, front: seq<string>, q: string, faults: set<string>)
    ensures AnsweringOf(b, front + [q], faults) == AnsweringOf(b, front, faults) + (if Answers(b, q, faults) then {q} else {})
  {
  }

  lemma NamesGrow(entries: seq<Stat>, e: Stat)
    ensures NamesOf(entries + [e]) == NamesOf(entries) + [e.name]
  {
  }

  lemma NamesSnoc(b: Backend, front: seq<string>, q: string, faults: set<string>)
    requires WellFormed(b) && AllRegistered(b, front) && q in b.queues && q !in front
    requires Enumerates(NamesOf(StatsOf(b, front, faults)), AnsweringOf(b, front, faults))
    ensures Enumerates(NamesOf(StatsOf(b, front + [q], faults)), AnsweringOf(b, front + [q], faults))
  {
    var entries := StatsOf(b, front, faults);
    StatsSnoc(b, front, q, faults);
    AnsweringSnoc(b, front, q, faults);
    if Answers(b, q, faults) {
      EnumeratesSnoc(NamesOf(entries), AnsweringOf(b, front, faults), q);
      NamesGrow(entries, StatOf(b, q));
    } else {
      assert entries + [] == entries;
    }
  }

  // ---------- What each call does when nothing interferes ----------

  function Created(b: Backend, q: string, same: bool, fault: bool): (Backend, Error) {
    if q == "" then (b, ErrEmptyName)
    else if q in b.queues then (b, ErrAlreadyExist)
    else Obtained(b, q, same, fault)
  }

  function Obtained(b: Backend, q: string, same: bool, fault: bool): (Backend, Error) {
    match AddOutcomeOf(b.js, StreamName(q), Subject(q), same, fault)
    case Refused => (b, ErrBackend)
    case NameInUse => (Register(b, q), ErrAlreadyExist)
    case Added => (Register(b.(js := AfterAdd(b.js, StreamName(q), Subject(q), same, fault)), q), NoError)
  }

  function Deleted(b: Backend, q: string, fault: bool): (Backend, Error) {
    if q == "" then (b, ErrEmptyName)
    else if q !in b.queues then (b, ErrNotExist)
    else if fault || StreamName(q) !in b.js then (b, ErrBackend)
    else (b.(js := b.js - {StreamName(q)}, queues := b.queues - {q}), NoError)
  }

  function Drained(b: Backend, q: string, infoFault: bool, purgeFault: bool): (Backend, Error)
    requires WellFormed(b)
  {
    if q !in b.queues then (b, ErrNotExist)
    else if StreamName(q) !in b.js then (b, ErrBackend)
    else
      var counted := if infoFault then b else CountDrained(b, b.queues[q], Depth(b.js[StreamName(q)]));
      if purgeFault then (counted, ErrBackend)
      else (counted.(js := AfterPurge(b.js, StreamName(q))), NoError)
  }

  /** `body` is the next message of the queue's durable consumer in `stream`: the consumer's cursor
      moves past it, and everything stays stored. */
  ghost predicate Delivers(before: Store, after: Store, q: string, stream: string, body: string) {
    && stream in before
    && exists k: nat :: k < |before[stream].log| && IsNext(before[stream], Durable(q), k) && body == before[stream].log[k]
         && after == before[stream := before[stream].(cursors := before[stream].cursors[Durable(q) := k + 1])]
  }

  /** A subscription without a cursor yet is one at the start. */
  lemma SubscribedNext(js: Store, name: string, durable: string, k: nat)
    requires name in js
    ensures IsNext(AfterSubscribe(js, name, durable)[name], durable, k) <==> IsNext(js[name], durable, k)
  {
    NextIsNext(AfterSubscribe(js, name, durable)[name], durable, k);
    NextIsNext(js[name], durable, k);
  }

  lemma FetchedIsDelivered(js: Store, js': Store, q: string, stream: string, body: string)
    requires stream in js && FetchedNext(AfterSubscribe(js, stream, Durable(q)), js', stream, Durable(q), body)
    ensures Delivers(js, js', q, stream, body)
  {
    var subscribed := AfterSubscribe(js, stream, Durable(q));
    var k: nat :| k < |subscribed[stream].log| && IsNext(subscribed[stream], Durable(q), k) && body == subscribed[stream].log[k]
         && js' == subscribed[stream := subscribed[stream].(cursors := subscribed[stream].cursors[Durable(q) := k + 1])];
    SubscribedNext(js, stream, Durable(q), k);
    assert subscribed[stream].cursors[Durable(q) := k + 1] == js[stream].cursors[Durable(q) := k + 1];
    assert js' == js[stream := js[stream].(cursors := js[stream].cursors[Durable(q) := k + 1])];
  }

  function Received(js: Store, q: string, how: Subscribing, fetchFault: FetchFault): (Store, Error) {
    if !CanSubscribe(js, q, how) then (js, ErrBackend)
    else
      var n, d := StreamFor(q, how), Durable(q);
      var subscribed := AfterSubscribe(js, n, d);
      if fetchFault == Failed then (subscribed, ErrBackend)
      else if fetchFault == TimedOut || NextIndex(subscribed[n], d) >= |subscribed[n].log| then (subscribed, ErrEmptyQueue)
      else (AfterFetch(subscribed, n, d), NoError)
  }

  function Got(b: Backend, q: string, how: Subscribing, fetchFault: FetchFault): (Backend, Error)
    requires WellFormed(b)
  {
    if q !in b.queues then (b, ErrNotExist)
    else
      var (js, err) := Received(b.js, q, how, fetchFault);
      if err == NoError then (CountDeq(b.(js := js), b.queues[q]), err) else (b.(js := js), err)
  }
}
