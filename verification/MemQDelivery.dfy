/** What the gets of a queue deliver in every interleaving: each message at most once, in the order
    of storing, none left out but those purged, and each delivery counted once. */
module MemQDelivery {
  import opened JetStream
  import opened NatsBackend
  import opened MemQSystem
  import opened MemQAccounting

  /** A get of `q` fetches a message in this step. */
  predicate Delivering(s: State, a: Action, q: string)
    requires Enabled(s, a)
  {
    a.Fetch? && OpOf(s, a.t).q == q && CanFetch(s.b.js, OpOf(s, a.t).stream, q, a.answer)
  }

  /** The positions in the queue's stream of the messages fetched, in the order they were. */
  ghost function Deliveries(js: Store, actions: seq<Action>, q: string): seq<nat>
    requires IsRun(Start(js), actions)
  {
    if actions == [] then []
    else
      var front, a := actions[..|actions| - 1], actions[|actions| - 1];
      var s := Run(Start(js), front);
      Deliveries(js, front, q)
      + (if Delivering(s, a, q) then [NextIndex(s.b.js[OpOf(s, a.t).stream], Durable(q))] else [])
  }

  /** Where the queue's consumer was before the run. */
  function Origin(js: Store, q: string): nat {
    if StreamName(q) in js then Cursor(js[StreamName(q)], Durable(q)) else 0
  }

  /** In order, from `origin` on, all below `cursor`, and nothing below `cursor` left out but what is
      purged. */
  ghost predicate InOrder(positions: seq<nat>, origin: nat, cursor: nat, purged: nat) {
    && (forall i, j :: 0 <= i < j < |positions| ==> positions[i] < positions[j])
    && (forall i :: 0 <= i < |positions| ==> origin <= positions[i] < cursor)
    && (forall p: nat :: origin <= p < cursor && p >= purged ==> p in positions)
  }

  ghost predicate Tracks(v: QView, positions: seq<nat>, origin: nat, q: string) {
    && (v.stream.None? ==> origin == 0)
    && (v.stream.Some? ==>
          var st := v.stream.value;
          SaneStream(st) && InOrder(positions, origin, Cursor(st, Durable(q)), st.purged))
    && |positions| == (if v.cell.Some? then v.cell.value.deq + v.gets else 0)
    && (v.cell.Some? ==> v.stream.Some?)
    && (v.cell.None? ==> v.gets == 0)
  }

  lemma OneMoreInOrder(positions: seq<nat>, origin: nat, st: Stream, d: string, k: nat)
    requires InOrder(positions, origin, Cursor(st, d), st.purged) && IsNext(st, d, k) && origin <= Cursor(st, d)
    ensures InOrder(positions + [k], origin, k + 1, st.purged)
  {
    NextIsNext(st, d, k);
    forall p: nat | origin <= p < k + 1 && p >= st.purged ensures p in positions + [k] {
      if p < k {
        assert Past(st, d, p);
      }
    }
  }

  lemma DeliveryTracks(s: State, a: Action, v: QView, v': QView, positions: seq<nat>, origin: nat, q: string)
    requires Coherent(s) && Enabled(s, a) && Delivering(s, a, q) && ViewStep(s, a, v, v')
    requires Tracks(v, positions, origin, q)
    requires v.stream.Some? && origin <= Cursor(v.stream.value, Durable(q))
    ensures Tracks(v', positions + [NextIndex(v.stream.value, Durable(q))], origin, q)
    ensures Cursor(v'.stream.value, Durable(q)) > origin
  {
    var st, d := v.stream.value, Durable(q);
    var k: nat :| k < |st.log| && IsNext(st, d, k) && v'.stream == Some(st.(cursors := st.cursors[d := k + 1]));
    NextIsNext(st, d, k);
    OneMoreInOrder(positions, origin, st, d, k);
  }

  /** Every other move of the queue's machine. */
  lemma OtherStepTracks(s: State, a: Action, v: QView, v': QView, positions: seq<nat>, origin: nat, q: string)
    requires Coherent(s) && Enabled(s, a) && ViewStep(s, a, v, v') && OpIsAbout(s, a, q) && !Delivering(s, a, q)
    requires Tracks(v, positions, origin, q)
    requires v.stream.Some? ==> origin <= Cursor(v.stream.value, Durable(q))
    ensures Tracks(v', positions, origin, q)
    ensures v'.stream.Some? ==> origin <= Cursor(v'.stream.value, Durable(q))
  {
  }

  lemma {:induction false} RunTracks(js: Store, actions: seq<Action>, names: set<string>, q: string)
    requires Setting(js, actions, names, q)
    ensures var v := ViewOf(Run(Start(js), actions), q);
      && Tracks(v, Deliveries(js, actions, q), Origin(js, q), q)
      && (v.stream.Some? ==> Origin(js, q) <= Cursor(v.stream.value, Durable(q)))
  {
    if actions != [] {
      var front, a := actions[..|actions| - 1], actions[|actions| - 1];
      SettingPrefix(js, actions, names, q);
      RunTracks(js, front, names, q);
      RunIsAccounted(js, front, names, q);
      StepTracks(Run(Start(js), front), a, Deliveries(js, front, q), Origin(js, q), q, names, Base(js, q));
    }
  }

  lemma StepTracks(s: State, a: Action, positions: seq<nat>, origin: nat, q: string, names: set<string>, base: nat)
    requires MemQAccounting.Accounted(s, q, names, base) && Enabled(s, a) && Distinct(names) && q in names
    requires BeginsWith(a).Some? ==> BeginsWith(a).value in names
    requires !(a.DeleteBegin? && a.q == q)
    requires Tracks(ViewOf(s, q), positions, origin, q)
    requires ViewOf(s, q).stream.Some? ==> origin <= Cursor(ViewOf(s, q).stream.value, Durable(q))
    ensures Coherent(Apply(s, a))
    ensures Tracks(ViewOf(Apply(s, a), q),
                   positions + (if Delivering(s, a, q) then [NextIndex(s.b.js[OpOf(s, a.t).stream], Durable(q))] else []), origin, q)
    ensures ViewOf(Apply(s, a), q).stream.Some? ==> origin <= Cursor(ViewOf(Apply(s, a), q).stream.value, Durable(q))
  {
    EveryStepIsAViewStep(s, a, q, names);
    if Delivering(s, a, q) {
      assert HeldOp(s.b, s.ops[a.t], q);
      GetStep(s, a, q);
      DeliveryTracks(s, a, ViewOf(s, q), ViewOf(Apply(s, a), q), positions, origin, q);
    } else {
      assert positions + [] == positions;
      if ViewOf(Apply(s, a), q) != ViewOf(s, q) {
        OtherStepTracks(s, a, ViewOf(s, q), ViewOf(Apply(s, a), q), positions, origin, q);
      }
    }
  }

  /** In every interleaving, for a queue nobody deletes: what its gets fetched are messages of its
      stream in the order they were stored, each once; every message its consumer has gone past since
      the start was fetched or purged; and as many were fetched as are counted as dequeued or are
      about to be. */
  lemma {:induction false} DeliveredInOrder(js: Store, actions: seq<Action>, names: set<string>, q: string)
    requires Setting(js, actions, names, q) && q in Run(Start(js), actions).b.queues
    ensures var s, positions := Run(Start(js), actions), Deliveries(js, actions, q);
      && StreamName(q) in s.b.js
      && var st, k := s.b.js[StreamName(q)], s.b.queues[q];
         && (forall i, j :: 0 <= i < j < |positions| ==> positions[i] < positions[j] < |st.log|)
         && (forall p: nat :: Past(st, Durable(q), p) && p >= Origin(js, q) ==> p in positions || p < st.purged)
         && (forall i :: 0 <= i < |positions| ==> Origin(js, q) <= positions[i] && Past(st, Durable(q), positions[i]))
         && |positions| == s.b.cells[k].deq + |Gets(s.ops, k)|
  {
    RunTracks(js, actions, names, q);
  }
}
