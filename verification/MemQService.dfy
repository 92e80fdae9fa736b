/** The whole backend, one caller at a time: as long as no two names in use have the same upper case,
    it answers like a map from names to lists. */
module MemQService {
  import opened JetStream
  import opened NatsBackend
  import opened Text
  import opened MemQFifo
  import MemQAccounting

  datatype Request =
    | Create(q: string, same: bool, fault: bool)
    | Delete(q: string, fault: bool)
    | On(q: string, c: Call)

  type Lists = map<string, seq<string>>

  // ---------- The map ----------

  function Next(lists: Lists, r: Request): Lists {
    match r
    case Create(q, _, fault) => if q != "" && q !in lists && !fault then lists[q := []] else lists
    case Delete(q, fault) => if q != "" && !fault then lists - {q} else lists
    case On(q, c) => if q in lists then lists[q := After(lists[q], c)] else lists
  }

  function Reply(lists: Lists, r: Request): Answer {
    match r
    case Create(q, _, fault) =>
      Answer(if q == "" then ErrEmptyName else if q in lists then ErrAlreadyExist else if fault then ErrBackend else NoError, Nothing)
    case Delete(q, fault) =>
      Answer(if q == "" then ErrEmptyName else if q !in lists then ErrNotExist else if fault then ErrBackend else NoError, Nothing)
    case On(q, c) => if q in lists then AnswerTo(lists[q], c) else Answer(ErrNotExist, Nothing)
  }

  function Outcome(requests: seq<Request>): Lists {
    if requests == [] then map[] else Next(Outcome(requests[..|requests| - 1]), requests[|requests| - 1])
  }

  function Replies(requests: seq<Request>): (replies: seq<Answer>)
    ensures |replies| == |requests|
  {
    if requests == [] then []
    else
      var front := requests[..|requests| - 1];
      Replies(front) + [Reply(Outcome(front), requests[|requests| - 1])]
  }

  lemma OneMoreRequest(requests: seq<Request>, i: nat)
    requires i < |requests|
    ensures Outcome(requests[..i + 1]) == Next(Outcome(requests[..i]), requests[i])
    ensures Replies(requests[..i + 1]) == Replies(requests[..i]) + [Reply(Outcome(requests[..i]), requests[i])]
  {
    assert requests[..i + 1][..i] == requests[..i];
  }

  // ---------- The backend stands for such a map ----------

  /** Exactly the listed queues are registered and have a stream, which holds the queue's list. */
  ghost predicate StandsFor(b: Backend, lists: Lists) {
    b.queues.Keys == lists.Keys && b.js.Keys == StreamsOf(lists.Keys) && HaveLists(b.js, lists)
  }

  ghost predicate HaveLists(js: Store, lists: Lists) {
    forall q :: q in lists ==> HasList(js, q, lists[q])
  }

  ghost predicate HasList(js: Store, q: string, waiting: seq<string>) {
    StreamName(q) in js && js[StreamName(q)].subject == Subject(q) && StreamHolds(js[StreamName(q)], Durable(q), waiting)
  }

  function StreamsOf(names: set<string>): set<string> {
    set q | q in names :: StreamName(q)
  }

  ghost predicate Apart(lists: Lists, names: set<string>) {
    lists.Keys <= names && MemQAccounting.Distinct(names)
  }

  lemma NextApart(lists: Lists, r: Request, names: set<string>)
    requires Apart(lists, names) && r.q in names
    ensures Apart(Next(lists, r), names)
  {
  }

  lemma StreamHasOwner(names: set<string>, n: string) returns (p: string)
    requires n in StreamsOf(names)
    ensures p in names && n == StreamName(p)
  {
    p :| p in names && n == StreamName(p);
  }

  lemma ListIsHeld(b: Backend, lists: Lists, q: string)
    requires StandsFor(b, lists) && q in lists
    ensures Holds(b, q, lists[q])
  {
    assert HasList(b.js, q, lists[q]);
    forall n | n in b.js ensures b.js[n].subject == Subject(q) <==> n == StreamName(q) {
      var p := StreamHasOwner(lists.Keys, n);
      assert HasList(b.js, p, lists[p]);
      if b.js[n].subject == Subject(q) {
        MemQAccounting.SubjectIsInjective(p, q);
      }
    }
  }

  /** Nobody has the stream or the subject of a name that is not listed. */
  lemma NewNameIsFree(b: Backend, lists: Lists, q: string, names: set<string>)
    requires StandsFor(b, lists) && q !in lists && q in names && Apart(lists, names)
    ensures StreamName(q) !in b.js && !SubjectTaken(b.js, Subject(q))
  {
    forall n | n in b.js ensures n != StreamName(q) && b.js[n].subject != Subject(q) {
      var p := StreamHasOwner(lists.Keys, n);
      assert HasList(b.js, p, lists[p]);
      if b.js[n].subject == Subject(q) {
        MemQAccounting.SubjectIsInjective(p, q);
      }
    }
  }

  ghost predicate OthersHave(js: Store, lists: Lists, q: string) {
    forall p :: p in lists && p != q ==> HasList(js, p, lists[p])
  }

  /** The other lists, when only this queue's stream changes. */
  lemma OthersKeepLists(js: Store, js': Store, lists: Lists, q: string, names: set<string>)
    requires HaveLists(js, lists) && Apart(lists, names) && q in names
    requires forall n :: n in js && n != StreamName(q) ==> n in js' && js'[n] == js[n]
    ensures OthersHave(js', lists, q)
  {
    forall p | p in lists && p != q ensures HasList(js', p, lists[p]) {
      assert HasList(js, p, lists[p]);
    }
  }

  lemma OneMoreList(js: Store, lists: Lists, q: string, waiting: seq<string>, lists': Lists)
    requires OthersHave(js, lists, q) && HasList(js, q, waiting) && lists' == lists[q := waiting]
    ensures HaveLists(js, lists')
  {
    forall p | p in lists' ensures HasList(js, p, lists'[p]) {
      assert p != q ==> HasList(js, p, lists[p]);
    }
  }

  lemma OneListLess(js: Store, lists: Lists, q: string, lists': Lists)
    requires OthersHave(js, lists, q) && lists' == lists - {q}
    ensures HaveLists(js, lists')
  {
    forall p | p in lists' ensures HasList(js, p, lists'[p]) {
      assert HasList(js, p, lists[p]);
    }
  }

  lemma OneListChanges(b: Backend, b': Backend, lists: Lists, q: string, waiting: seq<string>, names: set<string>)
    requires StandsFor(b, lists) && q in lists && Apart(lists, names)
    requires Touches(b, b', q) && Holds(b', q, waiting)
    ensures StandsFor(b', lists[q := waiting])
  {
    OthersKeepLists(b.js, b'.js, lists, q, names);
    OneMoreList(b'.js, lists, q, waiting, lists[q := waiting]);
    assert HasList(b.js, q, lists[q]);
    assert lists[q := waiting].Keys == lists.Keys;
    assert b'.js.Keys == b.js.Keys;
  }

  lemma ListAppears(b: Backend, b': Backend, lists: Lists, q: string, names: set<string>, lists': Lists)
    requires StandsFor(b, lists) && q !in lists && q in names && Apart(lists, names)
    requires b'.queues.Keys == b.queues.Keys + {q}
    requires b'.js == b.js[StreamName(q) := Stream(Subject(q), [], 0, map[])]
    requires lists' == lists[q := []]
    ensures StandsFor(b', lists')
  {
    NewListsHeld(b.js, b'.js, lists, q, names, lists');
    KeysAfter(lists, q, []);
    KeysAfter(b.js, StreamName(q), Stream(Subject(q), [], 0, map[]));
    StreamAdded(lists.Keys, q);
  }

  lemma KeysAfter<K, V>(m: map<K, V>, k: K, v: V)
    ensures m[k := v].Keys == m.Keys + {k}
  {
  }

  lemma NewListsHeld(js: Store, js': Store, lists: Lists, q: string, names: set<string>, lists': Lists)
    requires HaveLists(js, lists) && q in names && Apart(lists, names)
    requires js' == js[StreamName(q) := Stream(Subject(q), [], 0, map[])]
    requires lists' == lists[q := []]
    ensures HaveLists(js', lists')
  {
    OthersKeepLists(js, js', lists, q, names);
    FreshHolds(js'[StreamName(q)], Durable(q));
    OneMoreList(js', lists, q, [], lists');
  }

  lemma ListDisappears(b: Backend, b': Backend, lists: Lists, q: string, names: set<string>)
    requires StandsFor(b, lists) && q in lists && Apart(lists, names)
    requires b'.queues.Keys == b.queues.Keys - {q} && b'.js == b.js - {StreamName(q)}
    ensures StandsFor(b', lists - {q})
  {
    OthersKeepLists(b.js, b'.js, lists, q, names);
    OneListLess(b'.js, lists, q, lists - {q});
    assert (lists - {q}).Keys == lists.Keys - {q};
    assert b'.js.Keys == b.js.Keys - {StreamName(q)};
    StreamGone(lists.Keys, q, names);
  }

  lemma StreamAdded(listed: set<string>, q: string)
    ensures StreamsOf(listed + {q}) == StreamsOf(listed) + {StreamName(q)}
  {
  }

  lemma StreamGone(listed: set<string>, q: string, names: set<string>)
    requires q in listed && listed <= names && MemQAccounting.Distinct(names)
    ensures StreamsOf(listed - {q}) == StreamsOf(listed) - {StreamName(q)}
  {
  }

  lemma CreateStandsFor(b: Backend, lists: Lists, r: Request, names: set<string>, b': Backend, err: Error)
    requires StandsFor(b, lists) && Apart(lists, names) && r.Create? && r.q in names
    requires (b', err) == Created(b, r.q, r.same, r.fault)
    ensures StandsFor(b', Next(lists, r)) && Answer(err, Nothing) == Reply(lists, r)
  {
    if r.q != "" && r.q !in lists {
      NewNameIsFree(b, lists, r.q, names);
      if !r.fault {
        ListAppears(b, b', lists, r.q, names, lists[r.q := []]);
      }
    }
  }

  lemma DeleteStandsFor(b: Backend, lists: Lists, r: Request, names: set<string>, b': Backend, err: Error)
    requires StandsFor(b, lists) && Apart(lists, names) && r.Delete?
    requires (b', err) == Deleted(b, r.q, r.fault)
    ensures StandsFor(b', Next(lists, r)) && Answer(err, Nothing) == Reply(lists, r)
  {
    if r.q in lists {
      assert HasList(b.js, r.q, lists[r.q]);
      if r.q != "" && !r.fault {
        ListDisappears(b, b', lists, r.q, names);
      }
    } else {
      assert lists - {r.q} == lists;
    }
  }

  // ---------- The backend itself ----------

  lemma StillMine(known: seq<QStats>, all: seq<QStats>)
    requires known <= all
    ensures all == known + all[|known|..]
  {
  }

  method CallUnlisted(b: NatsBackend, q: string, c: Call, ghost lists: Lists) returns (answer: Answer)
    requires b.Valid() && StandsFor(b.View(), lists) && q !in lists
    modifies b.js, b.allStats
    ensures b.Valid() && StandsFor(b.View(), lists) && answer == Answer(ErrNotExist, Nothing)
  {
    ghost var was := b.View();
    assert q !in b.queues;
    match c {
      case Put(body, fault, idFault) =>
        var err, stream := b.PutMessage(q, body, fault, idFault);
        answer := Answer(err, Nothing);
      case Get(wish, retryFault, fetch, idFault) =>
        var err, reply, how := b.GetMessage(q, wish, retryFault, fetch, idFault);
        answer := Answer(err, reply);
      case Drain(infoFault, purgeFault) =>
        var err := b.DrainQueue(q, infoFault, purgeFault);
        answer := Answer(err, Nothing);
    }
    assert b.View() == was;
  }

  method CallListed(b: NatsBackend, q: string, c: Call, ghost lists: Lists, ghost names: set<string>) returns (answer: Answer)
    requires b.Valid() && StandsFor(b.View(), lists) && Apart(lists, names) && q in lists
    modifies b.js, b.allStats
    ensures b.Valid() && StandsFor(b.View(), lists[q := After(lists[q], c)]) && answer == AnswerTo(lists[q], c)
  {
    ghost var was := b.View();
    ListIsHeld(was, lists, q);
    answer := ServeOne(b, q, lists[q], c);
    OneListChanges(was, b.View(), lists, q, After(lists[q], c), names);
  }

  method CallOn(b: NatsBackend, r: Request, ghost lists: Lists, ghost names: set<string>) returns (answer: Answer)
    requires b.Valid() && StandsFor(b.View(), lists) && Apart(lists, names) && r.On?
    modifies b.js, b.allStats
    ensures b.Valid() && StandsFor(b.View(), Next(lists, r)) && answer == Reply(lists, r)
  {
    assert r.q in b.queues <==> r.q in lists;
    if r.q in b.queues {
      answer := CallListed(b, r.q, r.c, lists, names);
    } else {
      answer := CallUnlisted(b, r.q, r.c, lists);
    }
  }

  method Perform(b: NatsBackend, r: Request, ghost lists: Lists, ghost names: set<string>) returns (answer: Answer)
    requires b.Valid() && StandsFor(b.View(), lists) && Apart(lists, names) && r.q in names
    modifies b, b.js, b.allStats
    ensures b.Valid() && StandsFor(b.View(), Next(lists, r)) && answer == Reply(lists, r)
    ensures old(b.allStats) <= b.allStats && fresh(b.allStats[|old(b.allStats)|..])
  {
    ghost var was := b.View();
    match r
    case Create(q, same, fault) =>
      var err := b.CreateQueue(q, same, fault);
      answer := Answer(err, Nothing);
      CreateStandsFor(was, lists, r, names, b.View(), err);
    case Delete(q, fault) =>
      var err := b.DeleteQueue(q, fault);
      answer := Answer(err, Nothing);
      DeleteStandsFor(was, lists, r, names, b.View(), err);
    case On(q, c) =>
      answer := CallOn(b, r, lists, names);
  }

  /** A new backend on an empty store answers any requests, whatever fails, as the map does, if no two
      of their names have the same upper case. */
  method ServeAll(js: Context, requests: seq<Request>, ghost names: set<string>) returns (answers: seq<Answer>)
    requires js.streams == map[]
    requires MemQAccounting.Distinct(names) && forall i :: 0 <= i < |requests| ==> requests[i].q in names
    modifies js
    ensures answers == Replies(requests)
  {
    var b := new NatsBackend(js);
    ghost var lists: Lists := map[];
    answers := [];
    for i := 0 to |requests|
      invariant b.Valid() && b.js == js && fresh(b.allStats)
      invariant StandsFor(b.View(), lists) && Apart(lists, names)
      invariant lists == Outcome(requests[..i]) && answers == Replies(requests[..i])
    {
      OneMoreRequest(requests, i);
      ghost var known := b.allStats;
      var answer := Perform(b, requests[i], lists, names);
      StillMine(known, b.allStats);
      NextApart(lists, requests[i], names);
      lists := Next(lists, requests[i]);
      answers := answers + [answer];
    }
    assert requests[..|requests|] == requests;
  }

  /** And not otherwise: creating two queues one after the other answers as the map does exactly if
      their names are not the same up to case. */
  lemma {:induction false} SecondCreateIff(p: string, q: string, same: bool)
    requires p != q && p != "" && q != ""
    ensures var requests := [Create(p, same, false), Create(q, same, false)];
      var first := Created(Backend(map[], map[], []), p, same, false);
      && Answer(first.1, Nothing) == Replies(requests)[0]
      && (Answer(Created(first.0, q, same, false).1, Nothing) == Replies(requests)[1] <==> !SameText(p, q))
  {
    var c, d := Create(p, same, false), Create(q, same, false);
    OneMoreRequest([c, d], 0);
    OneMoreRequest([c, d], 1);
    assert [c, d][..0] == [] && [c, d][..1] == [c] && [c, d][..2] == [c, d];
    StreamNamesMeet(p, q);
    var b := Created(Backend(map[], map[], []), p, same, false).0;
    assert b.js.Keys == {StreamName(p)} && b.js[StreamName(p)].subject == Subject(p);
    if Subject(p) == Subject(q) {
      MemQAccounting.SubjectIsInjective(p, q);
    }
  }
}
