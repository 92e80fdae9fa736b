/** The part of JetStream the queue backend relies on, as a small store: streams by name, each
    with its subject, everything ever published to it, how much of that has been purged, and a
    cursor for every durable consumer. No retention limit is configured, so reading a message
    does not remove it. Any call may fail without effect. */
module JetStream {

  datatype Stream = Stream(subject: string, log: seq<string>, purged: nat, cursors: map<string, nat>)

  type Store = map<string, Stream>

  /** The number of stored messages, which is what StreamInfo reports. */
  function Depth(s: Stream): nat {
    if s.purged <= |s.log| then |s.log| - s.purged else 0
  }

  function Cursor(s: Stream, durable: string): nat {
    if durable in s.cursors then s.cursors[durable] else 0
  }

  /** The next message a durable consumer would get: never one that was purged. */
  function NextIndex(s: Stream, durable: string): nat {
    if Cursor(s, durable) < s.purged then s.purged else Cursor(s, durable)
  }

  /** A durable consumer is past message `i`: it was purged, or the consumer's cursor is beyond it. */
  predicate Past(s: Stream, durable: string, i: nat) {
    i < s.purged || (durable in s.cursors && i < s.cursors[durable])
  }

  /** Message `k` is what a durable consumer gets next: the first it is not past. */
  predicate IsNext(s: Stream, durable: string, k: nat) {
    !Past(s, durable, k) && forall i: nat :: i < k ==> Past(s, durable, i)
  }

  lemma NextIsNext(s: Stream, durable: string, k: nat)
    ensures IsNext(s, durable, k) <==> k == NextIndex(s, durable)
  {
    if IsNext(s, durable, k) && k > 0 {
      assert Past(s, durable, k - 1);
    }
  }

  datatype AddOutcome = Added | NameInUse | Refused

  predicate SubjectTaken(js: Store, subject: string) {
    exists n :: n in js && js[n].subject == subject
  }

  /** A new name needs a free subject. An existing stream is accepted if its configuration is the
      same (which needs the same subject, and is otherwise not known here). */
  function AddOutcomeOf(js: Store, name: string, subject: string, same: bool, fault: bool): AddOutcome {
    if fault then Refused
    else if name in js then (if same && js[name].subject == subject then Added else NameInUse)
    else if SubjectTaken(js, subject) then Refused
    else Added
  }

  function AfterAdd(js: Store, name: string, subject: string, same: bool, fault: bool): Store {
    if AddOutcomeOf(js, name, subject, same, fault) == Added && name !in js
    then js[name := Stream(subject, [], 0, map[])] else js
  }

  function AfterPublish(js: Store, name: string, body: string): Store
    requires name in js
  {
    js[name := js[name].(log := js[name].log + [body])]
  }

  function AfterPurge(js: Store, name: string): Store
    requires name in js
  {
    js[name := js[name].(purged := |js[name].log|)]
  }

  function AfterSubscribe(js: Store, name: string, durable: string): Store
    requires name in js
  {
    if durable in js[name].cursors then js
    else js[name := js[name].(cursors := js[name].cursors[durable := 0])]
  }

  function AfterFetch(js: Store, name: string, durable: string): Store
    requires name in js
  {
    js[name := js[name].(cursors := js[name].cursors[durable := NextIndex(js[name], durable) + 1])]
  }

  /** `body` was the consumer's next message, and only its cursor moved, past that message. */
  ghost predicate FetchedNext(js: Store, js': Store, name: string, durable: string, body: string) {
    && name in js
    && exists k: nat :: k < |js[name].log| && IsNext(js[name], durable, k) && body == js[name].log[k]
         && js' == js[name := js[name].(cursors := js[name].cursors[durable := k + 1])]
  }

  /** Subjects never overlap, and no stream is purged past its end or read past it. */
  ghost predicate Sane(js: Store) {
    && (forall m, n :: m in js && n in js && js[m].subject == js[n].subject ==> m == n)
    && (forall n :: n in js ==> SaneStream(js[n]))
  }

  ghost predicate SaneStream(s: Stream) {
    s.purged <= |s.log| && forall d :: d in s.cursors ==> s.cursors[d] <= |s.log|
  }

  /** What binding a consumer to a named stream comes to; a lost consumer is reported apart. */
  datatype BindResult = Bound | ConsumerNotFound | BindError

  /** The connection's JetStream context. `fault` decides whether a call fails. */
  class Context {
    var streams: Store

    constructor (streams: Store)
      ensures this.streams == streams
    {
      this.streams := streams;
    }

    method AddStream(name: string, subject: string, same: bool, fault: bool) returns (r: AddOutcome)
      modifies this
      ensures r == AddOutcomeOf(old(streams), name, subject, same, fault)
      ensures streams == AfterAdd(old(streams), name, subject, same, fault)
    {
      r := AddOutcomeOf(streams, name, subject, same, fault);
      streams := AfterAdd(streams, name, subject, same, fault);
    }

    method DeleteStream(name: string, fault: bool) returns (ok: bool)
      modifies this
      ensures ok <==> !fault && name in old(streams)
      ensures streams == if ok then old(streams) - {name} else old(streams)
    {
      ok := !fault && name in streams;
      if ok {
        streams := streams - {name};
      }
    }

    method StreamInfo(name: string, fault: bool) returns (ok: bool, msgs: nat)
      ensures ok <==> !fault && name in streams
      ensures ok ==> msgs == Depth(streams[name])
    {
      ok := !fault && name in streams;
      msgs := if ok then Depth(streams[name]) else 0;
    }

    method PurgeStream(name: string, fault: bool) returns (ok: bool)
      modifies this
      ensures ok <==> !fault && name in old(streams)
      ensures streams == if ok then AfterPurge(old(streams), name) else old(streams)
    {
      ok := !fault && name in streams;
      if ok {
        streams := AfterPurge(streams, name);
      }
    }

    /** Stores the message in the stream with that subject, if there is one. */
    method Publish(subject: string, body: string, fault: bool) returns (ok: bool, ghost name: string)
      modifies this
      ensures ok <==> !fault && SubjectTaken(old(streams), subject)
      ensures ok ==> name in old(streams) && old(streams)[name].subject == subject
      ensures streams == if ok then AfterPublish(old(streams), name, body) else old(streams)
    {
      ok, name := false, "";
      if !fault && SubjectTaken(streams, subject) {
        var n :| n in streams && streams[n].subject == subject;
        streams := AfterPublish(streams, n, body);
        ok, name := true, n;
      }
    }

    /** Binds a durable consumer to the named stream, which must carry the subject. `wish` is what
        the server would answer if it does. */
    method BindSubscribe(name: string, subject: string, durable: string, wish: BindResult) returns (r: BindResult)
      modifies this
      ensures r == if wish == Bound && !(name in old(streams) && old(streams)[name].subject == subject) then BindError else wish
      ensures streams == if r == Bound then AfterSubscribe(old(streams), name, durable) else old(streams)
    {
      r := wish;
      if wish == Bound {
        if name in streams && streams[name].subject == subject {
          streams := AfterSubscribe(streams, name, durable);
        } else {
          r := BindError;
        }
      }
    }

    /** Binds a durable consumer to whichever stream carries the subject. */
    method PullSubscribe(subject: string, durable: string, fault: bool) returns (ok: bool, name: string)
      modifies this
      ensures ok <==> !fault && SubjectTaken(old(streams), subject)
      ensures ok ==> name in old(streams) && old(streams)[name].subject == subject
      ensures streams == if ok then AfterSubscribe(old(streams), name, durable) else old(streams)
    {
      ok, name := false, "";
      if !fault && SubjectTaken(streams, subject) {
        name :| name in streams && streams[name].subject == subject;
        streams := AfterSubscribe(streams, name, durable);
        ok := true;
      }
    }

    /** One message, or none if there is none left (or the fetch failed). */
    method Fetch(name: string, durable: string, fault: bool) returns (got: bool, body: string)
      modifies this
      ensures got <==> !fault && name in old(streams) && NextIndex(old(streams)[name], durable) < |old(streams)[name].log|
      ensures got ==> body == old(streams)[name].log[NextIndex(old(streams)[name], durable)]
      ensures streams == if got then AfterFetch(old(streams), name, durable) else old(streams)
      ensures got ==> FetchedNext(old(streams), streams, name, durable, body)
      ensures !got && !fault && name in old(streams) ==>
        forall k: nat :: IsNext(old(streams)[name], durable, k) ==> |old(streams)[name].log| <= k
    {
      got, body := false, "";
      if name in streams {
        NextIsNext(streams[name], durable, NextIndex(streams[name], durable));
        forall k: nat | IsNext(streams[name], durable, k) ensures k == NextIndex(streams[name], durable) {
          NextIsNext(streams[name], durable, k);
        }
      }
      if !fault && name in streams && NextIndex(streams[name], durable) < |streams[name].log| {
        got, body := true, streams[name].log[NextIndex(streams[name], durable)];
        streams := AfterFetch(streams, name, durable);
      }
    }
  }
}
