/** The key generator under concurrency: any number of configuration callers, each of which
    writes the configuration before it asks for the restart, and any number of workers, current
    or superseded, printing into the same history.

    The lock keeps restarts and prints apart from each other, but it does not protect the
    configuration: a write may come between any two reads of an open restart. One assignment of
    the configuration, and one copy of it, are single steps here; everything else is a step for
    each read of the configuration, lock section or channel operation of the source. */
module KeyGenSystem {
  import opened BoundedHistory
  import opened KeyGen
  import M = MemQWorker
  import W = Workload

  /** Where a worker is. `Leaving` and `Left` remember whether it was cancelled. */
  datatype Place =
    | Starting | Polling | Working | Dequeuing | Reporting(result: M.Result)
    | Leaving(cancelled: bool) | Left(cancelled: bool) | Gone

  datatype Worker = Worker(spawn: Spawn, place: Place, generated: nat, fired: bool)

  datatype Choice = TakeCancel | TakeTimeout | TakeDefault

  datatype Action =
    | Write(caller: nat, c: Config)
    | Lock(caller: nat)
    | ReadEnable(caller: nat)
    | ReadQueue(caller: nat)
    | ReadServer(caller: nat)
    | Start(caller: nat)
    | Print(w: nat)
    | Check(w: nat, choice: Choice)
    | Dequeued(w: nat, result: M.Result)
    | Fire(w: nat)
    | Finish(w: nat)

  datatype LogEntry = LogEntry(w: nat, line: Line)

  /** Where the restart that holds the lock is: the old workload is stopped; Enable was true and
      there is a new context; there is a queue; the kind of worker is known. */
  datatype Section =
    | Free | Stopped(caller: nat) | Enabling(caller: nat) | Queueing(caller: nat) | Launching(caller: nat, memQ: bool)

  /** `pending` holds the callers between their write and the end of their restart; `log` is
      everything ever printed, with the worker that printed it; `exited` is the worker that ended
      the process. */
  datatype State = State(kg: Supervisor, section: Section, workers: seq<Worker>, pending: set<nat>,
                         log: seq<LogEntry>, exited: Option<nat>)

  const INITIAL: State := State(NEW_SUPERVISOR, Free, [], {}, [], None)

  // ---------- Worker steps ----------

  function Timed(w: Worker): bool { w.spawn.PlainSpawn? && w.spawn.config.timeToRun > 0 }

  predicate QuotaMet(w: Worker) {
    w.spawn.PlainSpawn? && w.spawn.config.numToGen > 0 && w.generated >= w.spawn.config.numToGen
  }

  /** The line a worker is about to print, if it is about to print one. */
  function NextLine(w: Worker): Option<Line> {
    match w.spawn {
      case PlainSpawn(id, c) =>
        (match w.place
         case Starting => Some(Started(id))
         case Working => Some(Item(id, w.generated + 1, W.Limit(c)))
         case Leaving(_) => Some(Exiting(id))
         case _ => None)
      case MemQSpawn(_) =>
        (match w.place
         case Starting => Some(MemQStarted)
         case Reporting(result) => Some(M.LineOf(result))
         case Leaving(_) => Some(MemQShutdown)
         case _ => None)
    }
  }

  function AfterPrint(w: Worker): Worker
    requires NextLine(w).Some?
  {
    if w.place.Leaving? then w.(place := Left(w.place.cancelled))
    else if w.place.Working? then w.(place := Polling, generated := w.generated + 1)
    else w.(place := Polling)
  }

  /** The check at the top of both loops: `select` may take any ready channel, and its default
      only when none is; the quota is looked at last. */
  predicate CanChoose(w: Worker, cancelled: bool, choice: Choice) {
    w.place.Polling? &&
    match choice
    case TakeCancel => cancelled
    case TakeTimeout => Timed(w) && w.fired
    case TakeDefault => !cancelled && !(Timed(w) && w.fired)
  }

  function AfterCheck(w: Worker, choice: Choice): Worker {
    match choice
    case TakeCancel => w.(place := Leaving(true))
    case TakeTimeout => w.(place := Leaving(false))
    case TakeDefault =>
      if w.spawn.MemQSpawn? then w.(place := Dequeuing)
      else if QuotaMet(w) then w.(place := Leaving(false))
      else w.(place := Working)
  }

  function ChoiceOf(why: W.Choice): Choice {
    match why
    case Cancelled => TakeCancel
    case TimedOut => TakeTimeout
    case _ => TakeDefault
  }

  /** The sequential loop's decision when `select` prefers the cancellation, or does not. */
  function DecisionOf(w: Worker, cancelled: bool, takeCancel: bool): W.Choice {
    W.Decide(w.spawn.config, w.generated, W.Poll(cancelled, w.fired, takeCancel))
  }

  /** The interleaved worker goes where the sequential loop's decision leads. */
  predicate Follows(w: Worker, why: W.Choice) {
    AfterCheck(w, ChoiceOf(why)).place == if why == W.Continue then Working else Leaving(why == W.Cancelled)
  }

  /** The checks of the interleaved model are exactly the decisions of the sequential loop, and
      lead where they lead. */
  lemma CheckDecides(w: Worker, cancelled: bool, choice: Choice)
    requires w.spawn.PlainSpawn? && w.place.Polling?
    ensures CanChoose(w, cancelled, choice) <==> exists takeCancel :: ChoiceOf(DecisionOf(w, cancelled, takeCancel)) == choice
    ensures forall takeCancel :: Follows(w, DecisionOf(w, cancelled, takeCancel))
  {
    assert DecisionOf(w, cancelled, true) == W.Cancelled <==> cancelled;
    assert DecisionOf(w, cancelled, false) == W.TimedOut <==> Timed(w) && w.fired;
  }

  // ---------- The transition system ----------

  /** Every worker has its context, and an open restart may have made one more. */
  predicate Shaped(s: State) {
    && HasCurrent(s.kg)
    && |s.workers| + (if HasContext(s.section) then 1 else 0) <= |s.kg.cancelled|
  }

  predicate HasContext(section: Section) {
    section.Enabling? || section.Queueing? || section.Launching?
  }

  predicate Enabled(s: State, a: Action) {
    s.exited.None? && Shaped(s) &&
    match a
    case Write(caller, _) => caller !in s.pending
    case Lock(caller) => caller in s.pending && s.section.Free?
    case ReadEnable(caller) => s.section == Stopped(caller)
    case ReadQueue(caller) => s.section == Enabling(caller)
    case ReadServer(caller) => s.section == Queueing(caller)
    case Start(caller) => s.section.Launching? && s.section.caller == caller
    case Print(w) => s.section.Free? && w < |s.workers| && NextLine(s.workers[w]).Some?
    case Check(w, choice) => w < |s.workers| && CanChoose(s.workers[w], s.kg.cancelled[w], choice)
    case Dequeued(w, _) => w < |s.workers| && s.workers[w].place.Dequeuing?
    case Fire(w) => w < |s.workers| && Timed(s.workers[w])
    case Finish(w) => w < |s.workers| && s.workers[w].place.Left?
  }

  function Apply(s: State, a: Action): State
    requires Enabled(s, a)
  {
    match a
    case Write(caller, c) => s.(kg := s.kg.(config := c), pending := s.pending + {caller})
    case Lock(caller) => s.(kg := CancelCurrent(s.kg), section := Stopped(caller))
    case ReadEnable(caller) =>
      if s.kg.config.enable then s.(kg := Opened(s.kg), section := Enabling(caller))
      else s.(kg := s.kg.(active := 0), section := Free, pending := s.pending - {caller})
    case ReadQueue(caller) =>
      s.(section := if WantsQueue(s.kg.config) then Queueing(caller) else Launching(caller, false))
    case ReadServer(caller) => s.(section := Launching(caller, WantsServer(s.kg.config)))
    case Start(caller) =>
      s.(kg := Launched(s.kg, s.section.memQ), section := Free, pending := s.pending - {caller},
         workers := s.workers + [Worker(SpawnOf(s.kg, s.section.memQ), Starting, 0, false)])
    case Print(w) =>
      var line := NextLine(s.workers[w]).value;
      s.(kg := Printed(s.kg, line), workers := s.workers[w := AfterPrint(s.workers[w])], log := s.log + [LogEntry(w, line)])
    case Check(w, choice) => s.(workers := s.workers[w := AfterCheck(s.workers[w], choice)])
    case Dequeued(w, result) =>
      if result == M.Empty && s.workers[w].spawn.config.exitOnComplete then s.(exited := Some(w))
      else s.(workers := s.workers[w := s.workers[w].(place := Reporting(result))])
    case Fire(w) => s.(workers := s.workers[w := s.workers[w].(fired := true)])
    case Finish(w) =>
      var worker := s.workers[w];
      if worker.spawn.PlainSpawn? && !worker.place.cancelled && worker.spawn.config.exitOnComplete
      then s.(exited := Some(w))
      else s.(workers := s.workers[w := worker.(place := Gone)])
  }

  /** A run: every action enabled when its turn comes. */
  ghost predicate IsRun(s: State, actions: seq<Action>)
    decreases |actions|, 0
  {
    actions == [] ||
    (IsRun(s, actions[..|actions| - 1]) && Enabled(Run(s, actions[..|actions| - 1]), actions[|actions| - 1]))
  }

  ghost function Run(s: State, actions: seq<Action>): State
    requires IsRun(s, actions)
    decreases |actions|, 1
  {
    if actions == [] then s else Apply(Run(s, actions[..|actions| - 1]), actions[|actions| - 1])
  }

  lemma RunSnoc(s: State, actions: seq<Action>, a: Action)
    requires IsRun(s, actions) && Enabled(Run(s, actions), a)
    ensures IsRun(s, actions + [a]) && Run(s, actions + [a]) == Apply(Run(s, actions), a)
  {
    assert (actions + [a])[..|actions|] == actions;
  }

  // ---------- One workload at a time ----------

  /** What holds in every state: exactly the context that cancelFunc cancels is live, if any; the
      i-th worker has the i-th context; and unless a restart is open the gauge is 1 exactly
      while there is a live context. */
  ghost predicate Tidy(s: State) {
    && |s.workers| == |s.kg.started|
    && (forall i :: 0 <= i < |s.workers| ==> s.workers[i].spawn == s.kg.started[i])
    && (forall i :: 0 <= i < |s.kg.cancelled| ==> (!s.kg.cancelled[i] <==> s.kg.cancel == Some(i)))
    && |s.kg.cancelled| == |s.workers| + (if HasContext(s.section) then 1 else 0)
    && (s.kg.cancel.Some? ==> s.kg.cancel.value < |s.kg.cancelled|)
    && (s.section.Stopped? ==> s.kg.cancel == None)
    && (HasContext(s.section) ==> s.kg.cancel == Some(|s.workers|) && s.kg.active == 1)
    && (s.section.Free? ==> s.kg.active == (if s.kg.cancel.Some? then 1 else 0))
    && (!s.section.Free? ==> s.section.caller in s.pending)
  }

  /** What runs is what `c` asks for: a live context iff `c` enables one, its worker with `c`
      itself and of the kind `c` selects. */
  ghost predicate Runs(s: State, c: Config) {
    && (s.kg.cancel.Some? <==> c.enable)
    && (s.kg.cancel.Some? ==>
          && s.kg.cancel.value < |s.workers|
          && s.workers[s.kg.cancel.value].spawn.config == c
          && (s.workers[s.kg.cancel.value].spawn.MemQSpawn? <==> c.memQQueue != "" && c.memQServer != ""))
  }

  /** When nobody but the open restart is pending, what it has read is what is stored; when
      nobody at all is, what runs is what is stored. */
  ghost predicate Settles(s: State) {
    var c := s.kg.config;
    match s.section
    case Free => s.pending == {} ==> Runs(s, c)
    case Stopped(_) => true
    case Enabling(caller) => s.pending == {caller} ==> c.enable
    case Queueing(caller) => s.pending == {caller} ==> c.enable && WantsQueue(c)
    case Launching(caller, memQ) => s.pending == {caller} ==> c.enable && memQ == (c.memQQueue != "" && c.memQServer != "")
  }

  lemma LockStaysTidy(s: State, caller: nat)
    requires Tidy(s) && Enabled(s, Lock(caller))
    ensures Tidy(Apply(s, Lock(caller)))
  {
  }

  lemma ReadEnableStaysTidy(s: State, caller: nat)
    requires Tidy(s) && Settles(s) && Enabled(s, ReadEnable(caller))
    ensures Tidy(Apply(s, ReadEnable(caller))) && Settles(Apply(s, ReadEnable(caller)))
  {
  }

  lemma StartStaysTidy(s: State, caller: nat)
    requires Tidy(s) && Settles(s) && Enabled(s, Start(caller))
    ensures Tidy(Apply(s, Start(caller))) && Settles(Apply(s, Start(caller)))
  {
    var s' := Apply(s, Start(caller));
    if s'.pending == {} {
      assert s.pending == {caller};
    }
  }

  /** Steps of workers, and reads that decide the kind. */
  lemma OtherStepStaysTidy(s: State, a: Action)
    requires Tidy(s) && Settles(s) && Enabled(s, a)
    requires !a.Lock? && !a.ReadEnable? && !a.Start?
    ensures Tidy(Apply(s, a)) && Settles(Apply(s, a))
  {
    if a.Write? {
      assert a.caller in Apply(s, a).pending;
    }
  }

  lemma StepStaysTidy(s: State, a: Action)
    requires Tidy(s) && Settles(s) && Enabled(s, a)
    ensures Tidy(Apply(s, a)) && Settles(Apply(s, a))
  {
    match a
    case Lock(caller) => LockStaysTidy(s, caller);
    case ReadEnable(caller) => ReadEnableStaysTidy(s, caller);
    case Start(caller) => StartStaysTidy(s, caller);
    case _ => OtherStepStaysTidy(s, a);
  }

  lemma {:induction false} EveryStateIsTidy(actions: seq<Action>)
    requires IsRun(INITIAL, actions)
    ensures Tidy(Run(INITIAL, actions)) && Settles(Run(INITIAL, actions))
  {
    if actions != [] {
      EveryStateIsTidy(actions[..|actions| - 1]);
      StepStaysTidy(Run(INITIAL, actions[..|actions| - 1]), actions[|actions| - 1]);
    }
  }

  /** In every interleaving, writes into open restarts included: the live context is the one
      cancelFunc cancels; outside restarts the gauge says whether there is one; and once no caller
      is between its write and the end of its restart, it exists iff the stored configuration
      enables it, and its worker has exactly that configuration. */
  lemma {:induction false} OneWorkloadAtATime(actions: seq<Action>)
    requires IsRun(INITIAL, actions)
    ensures var s := Run(INITIAL, actions);
      && (forall i :: 0 <= i < |s.kg.cancelled| ==> (!s.kg.cancelled[i] <==> s.kg.cancel == Some(i)))
      && (s.section.Free? ==> s.kg.active == (if s.kg.cancel.Some? then 1 else 0))
      && (s.pending == {} ==> s.section.Free? && Runs(s, s.kg.config))
  {
    EveryStateIsTidy(actions);
  }

  /** At most one started context is ever live. */
  lemma {:induction false} AtMostOneLiveContext(actions: seq<Action>, i: nat, j: nat)
    requires IsRun(INITIAL, actions)
    requires var cancelled := Run(INITIAL, actions).kg.cancelled;
      i < |cancelled| && j < |cancelled| && !cancelled[i] && !cancelled[j]
    ensures i == j
  {
    EveryStateIsTidy(actions);
  }

  // ---------- What a worker's configuration can be ----------

  /** The configuration as last written. */
  function Written(actions: seq<Action>): Config {
    if actions == [] then ZERO_CONFIG
    else if actions[|actions| - 1].Write? then actions[|actions| - 1].c
    else Written(actions[..|actions| - 1])
  }

  /** The steps of the restart a worker comes from. There is no read of the server without a
      queue. */
  datatype Origin = Origin(caller: nat, enable: nat, queue: nat, server: Option<nat>)

  /** `o` is what an open restart in this section has read so far. */
  ghost predicate ReadSoFar(actions: seq<Action>, section: Section, o: Origin) {
    HasContext(section) ==>
      && o.caller == section.caller
      && o.enable < |actions| && actions[o.enable] == ReadEnable(o.caller)
      && Written(actions[..o.enable]).enable
      && (forall k :: o.enable < k < |actions| ==> !actions[k].Lock?)
      && (!section.Enabling? ==>
            && o.enable < o.queue < |actions| && actions[o.queue] == ReadQueue(o.caller)
            && (section.Queueing? ==> Written(actions[..o.queue]).memQQueue != "")
            && (section.Launching? ==> KindRead(actions, section.memQ, o)))
  }

  /** The kind of worker follows from what was stored when the queue and the server were read. */
  ghost predicate KindRead(actions: seq<Action>, memQ: bool, o: Origin)
    requires o.queue < |actions|
  {
    match o.server
    case None => !memQ && Written(actions[..o.queue]).memQQueue == ""
    case Some(k) =>
      && o.queue < k < |actions| && actions[k] == ReadServer(o.caller)
      && Written(actions[..o.queue]).memQQueue != "" && memQ == (Written(actions[..k]).memQServer != "")
  }

  /** A worker came out of the restart `o` whose last step was `start`: enabled by what was stored
      at the read of Enable, of the kind stored at the reads of queue and server, and with the
      configuration stored at the copy. No other restart came between. */
  ghost predicate Explains(actions: seq<Action>, spawn: Spawn, o: Origin, start: nat) {
    && o.enable < o.queue < start < |actions|
    && actions[start] == Start(o.caller)
    && ReadSoFar(actions[..start], Launching(o.caller, spawn.MemQSpawn?), o)
    && spawn.config == Written(actions[..start])
  }

  ghost predicate Explained(actions: seq<Action>, spawn: Spawn) {
    exists o: Origin, start: nat :: Explains(actions, spawn, o, start)
  }

  ghost predicate SectionExplained(actions: seq<Action>, section: Section) {
    exists o :: ReadSoFar(actions, section, o)
  }

  lemma WrittenGrows(actions: seq<Action>, a: Action)
    ensures Written(actions + [a]) == if a.Write? then a.c else Written(actions)
  {
    assert (actions + [a])[..|actions|] == actions;
  }

  lemma StaysExplained(actions: seq<Action>, a: Action, spawn: Spawn)
    requires Explained(actions, spawn)
    ensures Explained(actions + [a], spawn)
  {
    var o: Origin, start: nat :| Explains(actions, spawn, o, start);
    assert (actions + [a])[..start] == actions[..start];
    assert Explains(actions + [a], spawn, o, start);
  }

  /** A step that is not one of the section leaves what was read. */
  lemma ReadsStay(actions: seq<Action>, a: Action, section: Section, o: Origin)
    requires ReadSoFar(actions, section, o) && !a.Lock?
    ensures ReadSoFar(actions + [a], section, o)
  {
    var longer := actions + [a];
    assert forall k :: 0 <= k <= |actions| ==> longer[..k] == actions[..k];
  }

  lemma EnableIsRead(actions: seq<Action>, caller: nat)
    requires Written(actions).enable
    ensures SectionExplained(actions + [ReadEnable(caller)], Enabling(caller))
  {
    var longer := actions + [ReadEnable(caller)];
    assert longer[..|actions|] == actions;
    assert ReadSoFar(longer, Enabling(caller), Origin(caller, |actions|, 0, None));
  }

  lemma QueueIsRead(actions: seq<Action>, caller: nat)
    requires SectionExplained(actions, Enabling(caller))
    ensures SectionExplained(actions + [ReadQueue(caller)],
                             if WantsQueue(Written(actions)) then Queueing(caller) else Launching(caller, false))
  {
    var o :| ReadSoFar(actions, Enabling(caller), o);
    var longer := actions + [ReadQueue(caller)];
    ReadsStay(actions, ReadQueue(caller), Enabling(caller), o);
    assert longer[..|actions|] == actions;
    var section := if WantsQueue(Written(actions)) then Queueing(caller) else Launching(caller, false);
    assert ReadSoFar(longer, section, Origin(caller, o.enable, |actions|, None));
  }

  lemma ServerIsRead(actions: seq<Action>, caller: nat)
    requires SectionExplained(actions, Queueing(caller))
    ensures SectionExplained(actions + [ReadServer(caller)], Launching(caller, WantsServer(Written(actions))))
  {
    var o :| ReadSoFar(actions, Queueing(caller), o);
    var longer := actions + [ReadServer(caller)];
    ReadsStay(actions, ReadServer(caller), Queueing(caller), o);
    assert longer[..|actions|] == actions;
    assert ReadSoFar(longer, Launching(caller, WantsServer(Written(actions))),
                     Origin(caller, o.enable, o.queue, Some(|actions|)));
  }

  lemma StartIsExplained(actions: seq<Action>, caller: nat, spawn: Spawn)
    requires SectionExplained(actions, Launching(caller, spawn.MemQSpawn?)) && spawn.config == Written(actions)
    ensures Explained(actions + [Start(caller)], spawn)
  {
    var o :| ReadSoFar(actions, Launching(caller, spawn.MemQSpawn?), o);
    assert (actions + [Start(caller)])[..|actions|] == actions;
    assert Explains(actions + [Start(caller)], spawn, o, |actions|);
  }

  /** Everything known of where workers come from. */
  ghost predicate Traced(s: State, actions: seq<Action>) {
    && s.kg.config == Written(actions)
    && SectionExplained(actions, s.section)
    && forall i :: 0 <= i < |s.workers| ==> Explained(actions, s.workers[i].spawn)
  }

  lemma SectionStaysTraced(s: State, actions: seq<Action>, a: Action)
    requires Traced(s, actions) && Enabled(s, a)
    ensures SectionExplained(actions + [a], Apply(s, a).section)
  {
    match a
    case ReadEnable(caller) =>
      if s.kg.config.enable { EnableIsRead(actions, caller); }
      else { assert ReadSoFar(actions + [a], Free, Origin(0, 0, 0, None)); }
    case ReadQueue(caller) => QueueIsRead(actions, caller);
    case ReadServer(caller) => ServerIsRead(actions, caller);
    case Lock(caller) => assert ReadSoFar(actions + [a], Stopped(caller), Origin(0, 0, 0, None));
    case Start(_) => assert ReadSoFar(actions + [a], Free, Origin(0, 0, 0, None));
    case _ =>
      var o :| ReadSoFar(actions, s.section, o);
      ReadsStay(actions, a, s.section, o);
  }

  lemma WorkersStayTraced(s: State, actions: seq<Action>, a: Action, i: nat)
    requires Traced(s, actions) && Enabled(s, a) && i < |Apply(s, a).workers|
    ensures Explained(actions + [a], Apply(s, a).workers[i].spawn)
  {
    if i < |s.workers| {
      assert Apply(s, a).workers[i].spawn == s.workers[i].spawn;
      StaysExplained(actions, a, s.workers[i].spawn);
    } else {
      StartIsExplained(actions, a.caller, Apply(s, a).workers[i].spawn);
    }
  }

  lemma StepStaysTraced(s: State, actions: seq<Action>, a: Action)
    requires Traced(s, actions) && Enabled(s, a)
    ensures Traced(Apply(s, a), actions + [a])
  {
    WrittenGrows(actions, a);
    SectionStaysTraced(s, actions, a);
    forall i | 0 <= i < |Apply(s, a).workers| ensures Explained(actions + [a], Apply(s, a).workers[i].spawn) {
      WorkersStayTraced(s, actions, a, i);
    }
  }

  /** What a worker's configuration can be, in every interleaving: what was stored at the copy,
      however little it has to do with what enabled the worker and chose its kind. */
  lemma {:induction false} WorkersAreExplained(actions: seq<Action>)
    requires IsRun(INITIAL, actions)
    ensures Traced(Run(INITIAL, actions), actions)
  {
    if actions == [] {
      assert ReadSoFar([], Free, Origin(0, 0, 0, None));
    } else {
      var front, a := actions[..|actions| - 1], actions[|actions| - 1];
      WorkersAreExplained(front);
      StepStaysTraced(Run(INITIAL, front), front, a);
      assert actions == front + [a];
    }
  }

  // ---------- A restart and its steps ----------

  function WriteOf(caller: nat, w: Option<Config>): seq<Action> {
    if w.Some? then [Write(caller, w.value)] else []
  }

  /** The steps of a restart by `caller`, if the configuration is `c` when it begins and callers
      p, p + 1, p + 2 and p + 3 make the writes `w` into it. */
  function RestartRun(c: Config, caller: nat, p: nat, w: Writes): seq<Action> {
    var head := EnableRun(caller, p, w);
    if Latest(c, w.atEnable).enable then head + KindRun(Latest(c, w.atEnable), caller, p, w) else head
  }

  function EnableRun(caller: nat, p: nat, w: Writes): seq<Action> {
    [Lock(caller)] + WriteOf(p, w.atEnable) + [ReadEnable(caller)]
  }

  function KindRun(c: Config, caller: nat, p: nat, w: Writes): seq<Action> {
    WriteOf(p + 1, w.atQueue) + [ReadQueue(caller)] + WriteOf(p + 2, w.atServer)
    + (if WantsQueue(AtQueue(c, w)) then [ReadServer(caller)] else []) + WriteOf(p + 3, w.atCopy) + [Start(caller)]
  }

  /** `s'` can be reached from `s` by `actions`. */
  ghost predicate Leads(s: State, actions: seq<Action>, s': State) {
    IsRun(s, actions) && Run(s, actions) == s'
  }

  lemma LeadsOneMore(s: State, a: seq<Action>, s': State, x: Action, s'': State)
    requires Leads(s, a, s') && Enabled(s', x) && s'' == Apply(s', x)
    ensures Leads(s, a + [x], s'')
  {
    RunSnoc(s, a, x);
  }

  lemma LastOfLeads(s: State, b: seq<Action>, s'': State) returns (s': State)
    requires Leads(s, b, s'') && b != []
    ensures Leads(s, b[..|b| - 1], s') && Enabled(s', b[|b| - 1]) && s'' == Apply(s', b[|b| - 1])
  {
    s' := Run(s, b[..|b| - 1]);
  }

  lemma Rejoin(a: seq<Action>, b: seq<Action>)
    requires b != []
    ensures a + b[..|b| - 1] + [b[|b| - 1]] == a + b
  {
  }

  lemma {:induction false} LeadsOn(s: State, a: seq<Action>, s': State, b: seq<Action>, s'': State)
    requires Leads(s, a, s') && Leads(s', b, s'')
    ensures Leads(s, a + b, s'')
  {
    if b == [] {
      assert a + b == a;
    } else {
      var front, x := b[..|b| - 1], b[|b| - 1];
      var before := LastOfLeads(s', b, s'');
      LeadsOn(s, a, s', front, before);
      LeadsOneMore(s, a + front, before, x, s'');
      Rejoin(a, b);
    }
  }

  lemma OneStep(s: State, a: Action)
    requires Enabled(s, a)
    ensures Leads(s, [a], Apply(s, a))
  {
    RunSnoc(s, [], a);
    assert [] + [a] == [a];
  }

  /** The state after other callers' writes. */
  function WrittenBy(s: State, p: nat, w: Option<Config>): State {
    if w.Some? then s.(kg := s.kg.(config := w.value), pending := s.pending + {p}) else s
  }

  lemma WriteLeads(s: State, p: nat, w: Option<Config>)
    requires s.exited.None? && Shaped(s) && p !in s.pending
    ensures Leads(s, WriteOf(p, w), WrittenBy(s, p, w))
  {
    if w.Some? {
      OneStep(s, Write(p, w.value));
    }
  }

  /** A state in which `caller` restarts, and p + 1 to p + 3 have nothing pending. */
  predicate Ready(s: State, caller: nat, p: nat) {
    && s.exited.None? && Shaped(s) && caller in s.pending
    && p + 1 !in s.pending && p + 2 !in s.pending && p + 3 !in s.pending
  }

  lemma EnableLeads(s: State, caller: nat, p: nat, w: Writes) returns (s': State)
    requires Ready(s, caller, p) && s.section.Free? && p !in s.pending
    ensures Leads(s, EnableRun(caller, p, w), s')
    ensures var c := Latest(s.kg.config, w.atEnable);
      && s' == s.(kg := s'.kg, section := s'.section, pending := s'.pending)
      && if c.enable then
           && s'.kg == Opened(CancelCurrent(s.kg).(config := c)) && s'.section == Enabling(caller)
           && s'.pending <= s.pending + {p} && caller in s'.pending
         else s'.kg == CancelCurrent(s.kg).(config := c, active := 0) && s'.section.Free?
  {
    var s1 := Apply(s, Lock(caller));
    var s2 := WrittenBy(s1, p, w.atEnable);
    s' := Apply(s2, ReadEnable(caller));
    OneStep(s, Lock(caller));
    WriteLeads(s1, p, w.atEnable);
    LeadsOn(s, [Lock(caller)], s1, WriteOf(p, w.atEnable), s2);
    OneStep(s2, ReadEnable(caller));
    LeadsOn(s, [Lock(caller)] + WriteOf(p, w.atEnable), s2, [ReadEnable(caller)], s');
  }

  /** The read of the server, which is left out without a queue. */
  lemma ServerLeads(s: State, caller: nat, queue: bool) returns (s': State)
    requires s.exited.None? && Shaped(s)
    requires s.section == if queue then Queueing(caller) else Launching(caller, false)
    ensures Leads(s, if queue then [ReadServer(caller)] else [], s')
    ensures s' == s.(section := Launching(caller, queue && WantsServer(s.kg.config)))
  {
    if queue {
      OneStep(s, ReadServer(caller));
      s' := Apply(s, ReadServer(caller));
    } else {
      s' := s;
    }
  }

  lemma QueueLeads(s: State, caller: nat, p: nat, w: Writes) returns (s': State)
    requires Ready(s, caller, p) && s.section == Enabling(caller)
    ensures Leads(s, WriteOf(p + 1, w.atQueue) + [ReadQueue(caller)] + WriteOf(p + 2, w.atServer), s')
    ensures var c := s.kg.config;
      && s' == s.(kg := s.kg.(config := AtServer(c, w)), section := s'.section, pending := s'.pending)
      && s'.section == (if WantsQueue(AtQueue(c, w)) then Queueing(caller) else Launching(caller, false))
      && s'.pending <= s.pending + {p + 1, p + 2}
  {
    var s1 := WrittenBy(s, p + 1, w.atQueue);
    var s2 := Apply(s1, ReadQueue(caller));
    s' := WrittenBy(s2, p + 2, w.atServer);
    WriteLeads(s, p + 1, w.atQueue);
    OneStep(s1, ReadQueue(caller));
    LeadsOn(s, WriteOf(p + 1, w.atQueue), s1, [ReadQueue(caller)], s2);
    WriteLeads(s2, p + 2, w.atServer);
    LeadsOn(s, WriteOf(p + 1, w.atQueue) + [ReadQueue(caller)], s2, WriteOf(p + 2, w.atServer), s');
  }

  lemma KindLeads(s: State, caller: nat, p: nat, w: Writes) returns (s': State)
    requires Ready(s, caller, p) && s.section == Enabling(caller)
    ensures Leads(s, KindRun(s.kg.config, caller, p, w), s')
    ensures var c, kg := s.kg.config, s.kg.(config := AtCopy(s.kg.config, w));
      && s'.kg == Launched(kg, PicksMemQ(c, w)) && s'.section.Free?
      && s'.workers == s.workers + [Worker(SpawnOf(kg, PicksMemQ(c, w)), Starting, 0, false)]
  {
    var queue := WantsQueue(AtQueue(s.kg.config, w));
    var lead := WriteOf(p + 1, w.atQueue) + [ReadQueue(caller)] + WriteOf(p + 2, w.atServer);
    var server := if queue then [ReadServer(caller)] else [];
    var s1 := QueueLeads(s, caller, p, w);
    var s2 := ServerLeads(s1, caller, queue);
    LeadsOn(s, lead, s1, server, s2);
    var s3 := WrittenBy(s2, p + 3, w.atCopy);
    WriteLeads(s2, p + 3, w.atCopy);
    LeadsOn(s, lead + server, s2, WriteOf(p + 3, w.atCopy), s3);
    OneStep(s3, Start(caller));
    s' := Apply(s3, Start(caller));
    LeadsOn(s, lead + server + WriteOf(p + 3, w.atCopy), s3, [Start(caller)], s');
  }

  /** The supervisor object's Restart, with any writes into it, is these steps. */
  lemma {:induction false} RestartIsItsSteps(s: State, caller: nat, p: nat, w: Writes)
    requires Ready(s, caller, p) && s.section.Free? && p !in s.pending
    ensures var actions := RestartRun(s.kg.config, caller, p, w);
      IsRun(s, actions) && Run(s, actions).section.Free? && Run(s, actions).kg == Restarted(s.kg, w)
  {
    var s1 := EnableLeads(s, caller, p, w);
    if Latest(s.kg.config, w.atEnable).enable {
      var s2 := KindLeads(s1, caller, p, w);
      LeadsOn(s, EnableRun(caller, p, w), s1, KindRun(s1.kg.config, caller, p, w), s2);
    }
  }

  /** The run of one caller into whose restart three others write. */
  function TornRun(enabling: Config, queueing: Config, serving: Config, copied: Config): seq<Action> {
    [Write(0, enabling)] + RestartRun(enabling, 0, 1, Writes(None, Some(queueing), Some(serving), Some(copied)))
  }

  /** So what a worker's origin allows does happen, for any four configurations of which the first
      enables: a live worker with the last one's contents, which need not enable anything, of the
      kind the second and third select, which need not be its own. */
  lemma {:induction false} AnyFourCanMeet(enabling: Config, queueing: Config, serving: Config, copied: Config)
    requires enabling.enable
    ensures var actions, memQ := TornRun(enabling, queueing, serving, copied), queueing.memQQueue != "" && serving.memQServer != "";
      && IsRun(INITIAL, actions)
      && var s := Run(INITIAL, actions);
         && s.kg.started == [if memQ then MemQSpawn(copied) else PlainSpawn(0, copied)]
         && s.kg.cancelled == [false] && s.kg.cancel == Some(0)
  {
    var w := Writes(None, Some(queueing), Some(serving), Some(copied));
    var s := Apply(INITIAL, Write(0, enabling));
    OneStep(INITIAL, Write(0, enabling));
    RestartIsItsSteps(s, 0, 1, w);
    LeadsOn(INITIAL, [Write(0, enabling)], s, RestartRun(enabling, 0, 1, w), Run(s, RestartRun(enabling, 0, 1, w)));
  }

  // ---------- History ----------

  function Numbered(log: seq<LogEntry>): seq<History> {
    seq(|log|, i requires 0 <= i < |log| => History(i, log[i].line))
  }

  lemma NumberedGrows(log: seq<LogEntry>, e: LogEntry)
    ensures Numbered(log + [e]) == Numbered(log) + [History(|log|, e.line)]
  {
  }

  predicate ShowsWindow(s: State) {
    s.kg.history == LastN(MAX_HISTORY, Numbered(s.log)) && s.kg.nextHistoryID == |s.log|
  }

  lemma StepShowsWindow(s: State, a: Action)
    requires Enabled(s, a) && ShowsWindow(s)
    ensures ShowsWindow(Apply(s, a))
  {
    if a.Print? {
      var line := NextLine(s.workers[a.w]).value;
      AppendKeepsWindow(MAX_HISTORY, Numbered(s.log), History(|s.log|, line));
      NumberedGrows(s.log, LogEntry(a.w, line));
    } else {
      assert Apply(s, a).log == s.log && Apply(s, a).kg.history == s.kg.history;
    }
  }

  lemma {:induction false} EveryStateShowsWindow(actions: seq<Action>)
    requires IsRun(INITIAL, actions)
    ensures ShowsWindow(Run(INITIAL, actions))
  {
    if actions != [] {
      EveryStateShowsWindow(actions[..|actions| - 1]);
      StepShowsWindow(Run(INITIAL, actions[..|actions| - 1]), actions[|actions| - 1]);
    }
  }

  lemma WindowIs(s: State)
    requires ShowsWindow(s)
    ensures var shown, all := |s.kg.history|, |s.log|;
      && shown == (if all < 20 then all else 20) && s.kg.nextHistoryID == all
      && forall i :: 0 <= i < shown ==> s.kg.history[i] == History(all - shown + i, s.log[all - shown + i].line)
  {
    var all := Numbered(s.log);
    assert s.kg.history == all[|all| - |s.kg.history|..];
  }

  /** Whatever the order of prints, the history is the last 20 entries of the full log, numbered
      without gaps up to nextHistoryID - 1. */
  lemma {:induction false} HistoryIsWindow(actions: seq<Action>)
    requires IsRun(INITIAL, actions)
    ensures var s := Run(INITIAL, actions);
      var shown, all := |s.kg.history|, |s.log|;
      && shown == (if all < 20 then all else 20) && s.kg.nextHistoryID == all
      && forall i :: 0 <= i < shown ==> s.kg.history[i] == History(all - shown + i, s.log[all - shown + i].line)
  {
    EveryStateShowsWindow(actions);
    WindowIs(Run(INITIAL, actions));
  }

  function PlainIds(started: seq<Spawn>): seq<nat> {
    if started == [] then []
    else
      var front := PlainIds(started[..|started| - 1]);
      match started[|started| - 1]
      case PlainSpawn(id, _) => front + [id]
      case MemQSpawn(_) => front
  }

  lemma PlainIdsGrow(started: seq<Spawn>, spawn: Spawn)
    ensures PlainIds(started + [spawn]) == PlainIds(started) + (if spawn.PlainSpawn? then [spawn.id] else [])
  {
    assert (started + [spawn])[..|started|] == started;
  }

  predicate NumbersPlain(kg: Supervisor) {
    PlainIds(kg.started) == seq(kg.nextWorkloadID, i requires 0 <= i < kg.nextWorkloadID => i)
  }

  lemma StepNumbersPlain(s: State, a: Action)
    requires Enabled(s, a) && NumbersPlain(s.kg)
    ensures NumbersPlain(Apply(s, a).kg)
  {
    if a.Start? {
      PlainIdsGrow(s.kg.started, SpawnOf(s.kg, s.section.memQ));
    }
  }

  /** Plain workloads get the ids 0, 1, 2, ... in order; MemQ workers use none up. */
  lemma {:induction false} PlainIdsAreConsecutive(actions: seq<Action>)
    requires IsRun(INITIAL, actions)
    ensures var kg := Run(INITIAL, actions).kg;
      PlainIds(kg.started) == seq(kg.nextWorkloadID, i requires 0 <= i < kg.nextWorkloadID => i)
  {
    if actions != [] {
      PlainIdsAreConsecutive(actions[..|actions| - 1]);
      StepNumbersPlain(Run(INITIAL, actions[..|actions| - 1]), actions[|actions| - 1]);
    }
  }

  // ---------- What one worker prints ----------

  predicate Mentions(line: Line, id: nat) {
    match line
    case Started(k) => k == id
    case Item(k, _, _) => k == id
    case Exiting(k) => k == id
    case _ => false
  }

  /** The part of the log that names a plain workload, by the id it prints. */
  function Projection(log: seq<LogEntry>, id: nat): seq<Line> {
    if log == [] then []
    else
      var front, line := Projection(log[..|log| - 1], id), log[|log| - 1].line;
      if Mentions(line, id) then front + [line] else front
  }

  /** What a plain worker has printed when it is at a given place: a prefix of
      start, item 1, ..., item k, exit. */
  function PrintedSoFar(w: Worker): seq<Line>
    requires w.spawn.PlainSpawn?
  {
    if w.place.Starting? then []
    else
      W.Lines(w.spawn.id, w.spawn.config, w.generated)
      + (if w.place.Left? || w.place.Gone? then [Exiting(w.spawn.id)] else [])
  }

  /** Every plain worker: its projection is what its place says, its items respect the quota,
      and it is leaving uncancelled only because it met the quota or its timer fired. */
  ghost predicate Accounted(s: State) {
    && (forall i :: 0 <= i < |s.workers| ==> WorkerAccounted(s.workers[i], s.log, s.kg.nextWorkloadID))
    && (forall i, j :: 0 <= i < j < |s.workers| && s.workers[i].spawn.PlainSpawn? && s.workers[j].spawn.PlainSpawn? ==>
          s.workers[i].spawn.id != s.workers[j].spawn.id)
    && (forall k, id: nat :: 0 <= k < |s.log| && Mentions(s.log[k].line, id) ==> id < s.kg.nextWorkloadID)
  }

  ghost predicate WorkerAccounted(w: Worker, log: seq<LogEntry>, nextID: nat) {
    w.spawn.PlainSpawn? ==>
      && w.spawn.id < nextID
      && !w.place.Dequeuing? && !w.place.Reporting?
      && Projection(log, w.spawn.id) == PrintedSoFar(w)
      && (w.spawn.config.numToGen > 0 ==> w.generated <= w.spawn.config.numToGen)
      && (w.spawn.config.numToGen > 0 && w.place.Working? ==> w.generated < w.spawn.config.numToGen)
      && (w.place.Starting? ==> w.generated == 0)
      && ((w.place.Leaving? || w.place.Left?) && !w.place.cancelled ==> QuotaMet(w) || (Timed(w) && w.fired))
  }

  lemma {:induction false} ProjectionOfUnknown(log: seq<LogEntry>, id: nat)
    requires forall k :: 0 <= k < |log| ==> !Mentions(log[k].line, id)
    ensures Projection(log, id) == []
  {
    if log != [] {
      ProjectionOfUnknown(log[..|log| - 1], id);
    }
  }

  lemma ProjectionGrows(log: seq<LogEntry>, e: LogEntry, id: nat)
    ensures Projection(log + [e], id) == Projection(log, id) + (if Mentions(e.line, id) then [e.line] else [])
  {
    assert (log + [e])[..|log|] == log;
  }

  /** The printing worker's own account. */
  lemma PrinterAccounted(w: Worker, log: seq<LogEntry>, nextID: nat, k: nat)
    requires WorkerAccounted(w, log, nextID) && NextLine(w).Some?
    ensures WorkerAccounted(AfterPrint(w), log + [LogEntry(k, NextLine(w).value)], nextID)
  {
    if w.spawn.PlainSpawn? {
      ProjectionGrows(log, LogEntry(k, NextLine(w).value), w.spawn.id);
    }
  }

  /** Nobody else's. */
  lemma OthersAccounted(w: Worker, log: seq<LogEntry>, nextID: nat, e: LogEntry)
    requires WorkerAccounted(w, log, nextID)
    requires w.spawn.PlainSpawn? ==> !Mentions(e.line, w.spawn.id)
    ensures WorkerAccounted(w, log + [e], nextID)
  {
    if w.spawn.PlainSpawn? {
      ProjectionGrows(log, e, w.spawn.id);
    }
  }

  lemma LineNamesItsWorker(w: Worker, id: nat)
    requires NextLine(w).Some?
    ensures Mentions(NextLine(w).value, id) <==> w.spawn.PlainSpawn? && w.spawn.id == id
  {
  }

  lemma PrintKeepsAccounts(s: State, w: nat)
    requires Accounted(s) && Enabled(s, Print(w))
    ensures Accounted(Apply(s, Print(w)))
  {
    var printer := s.workers[w];
    var e := LogEntry(w, NextLine(printer).value);
    var s' := Apply(s, Print(w));
    forall i | 0 <= i < |s.workers| ensures WorkerAccounted(s'.workers[i], s.log + [e], s.kg.nextWorkloadID) {
      if i == w {
        PrinterAccounted(printer, s.log, s.kg.nextWorkloadID, w);
      } else {
        if s.workers[i].spawn.PlainSpawn? {
          LineNamesItsWorker(printer, s.workers[i].spawn.id);
        }
        OthersAccounted(s.workers[i], s.log, s.kg.nextWorkloadID, e);
      }
    }
    forall k, id: nat | 0 <= k < |s'.log| && Mentions(s'.log[k].line, id) ensures id < s.kg.nextWorkloadID {
      LineNamesItsWorker(printer, id);
      assert WorkerAccounted(printer, s.log, s.kg.nextWorkloadID);
    }
  }

  lemma StartKeepsAccounts(s: State, caller: nat)
    requires Accounted(s) && Enabled(s, Start(caller))
    ensures Accounted(Apply(s, Start(caller)))
  {
    var s' := Apply(s, Start(caller));
    forall i | 0 <= i < |s'.workers| ensures WorkerAccounted(s'.workers[i], s'.log, s'.kg.nextWorkloadID) {
      if i < |s.workers| {
        assert WorkerAccounted(s.workers[i], s.log, s.kg.nextWorkloadID);
      } else if s'.workers[i].spawn.PlainSpawn? {
        ProjectionOfUnknown(s.log, s.kg.nextWorkloadID);
      }
    }
  }

  lemma OtherStepsKeepAccounts(s: State, a: Action)
    requires Accounted(s) && Enabled(s, a) && !a.Start? && !a.Print?
    ensures Accounted(Apply(s, a))
  {
    var s' := Apply(s, a);
    assert s'.log == s.log && s'.kg.started == s.kg.started && s'.kg.nextWorkloadID == s.kg.nextWorkloadID;
    forall i | 0 <= i < |s'.workers|
      ensures s'.workers[i].spawn == s.workers[i].spawn
      ensures WorkerAccounted(s'.workers[i], s.log, s.kg.nextWorkloadID)
    {
      assert WorkerAccounted(s.workers[i], s.log, s.kg.nextWorkloadID);
      SilentMoveAccounted(s, a, i);
    }
  }

  /** A step that prints nothing keeps the mover's account, too. */
  lemma SilentMoveAccounted(s: State, a: Action, i: nat)
    requires Enabled(s, a) && !a.Start? && !a.Print? && i < |s.workers|
    requires WorkerAccounted(s.workers[i], s.log, s.kg.nextWorkloadID)
    ensures Apply(s, a).workers[i].spawn == s.workers[i].spawn
    ensures WorkerAccounted(Apply(s, a).workers[i], s.log, s.kg.nextWorkloadID)
  {
    if a.Check? && a.w == i {
      CheckAccounted(s.workers[i], s.kg.cancelled[i], a.choice, s.log, s.kg.nextWorkloadID);
    }
  }

  lemma CheckAccounted(w: Worker, cancelled: bool, choice: Choice, log: seq<LogEntry>, nextID: nat)
    requires CanChoose(w, cancelled, choice) && WorkerAccounted(w, log, nextID)
    ensures WorkerAccounted(AfterCheck(w, choice), log, nextID)
  {
  }

  /** In every interleaving, every plain worker's lines are a prefix of its own program, with
      consecutive item counters, however many other workers print between them. */
  lemma {:induction false} EveryWorkerIsAccounted(actions: seq<Action>)
    requires IsRun(INITIAL, actions)
    ensures Accounted(Run(INITIAL, actions))
  {
    if actions != [] {
      var front, a := actions[..|actions| - 1], actions[|actions| - 1];
      EveryWorkerIsAccounted(front);
      var s := Run(INITIAL, front);
      if a.Print? {
        PrintKeepsAccounts(s, a.w);
      } else if a.Start? {
        StartKeepsAccounts(s, a.caller);
      } else {
        OtherStepsKeepAccounts(s, a);
      }
    }
  }

  /** The process is ended only by a worker configured to exit on completion: a plain one that
      met its quota or whose timer fired, or a MemQ one at an empty result. */
  lemma ExitIsDeserved(actions: seq<Action>)
    requires IsRun(INITIAL, actions) && Run(INITIAL, actions).exited.Some?
    ensures var s := Run(INITIAL, actions);
      && s.exited.value < |s.workers|
      && var w := s.workers[s.exited.value];
         && w.spawn.config.exitOnComplete
         && (w.spawn.PlainSpawn? ==>
               (w.spawn.config.numToGen > 0 && w.generated >= w.spawn.config.numToGen) || (w.spawn.config.timeToRun > 0 && w.fired))
         && (w.spawn.MemQSpawn? ==> actions[|actions| - 1] == Dequeued(s.exited.value, M.Empty))
  {
    var front, a := actions[..|actions| - 1], actions[|actions| - 1];
    EveryWorkerIsAccounted(front);
    var s := Run(INITIAL, front);
    assert Enabled(s, a);
    assert WorkerAccounted(s.workers[a.w], s.log, s.kg.nextWorkloadID);
    MemQWorkersLeaveCancelled(front);
  }

  predicate LeavesCancelled(w: Worker) {
    w.spawn.MemQSpawn? && (w.place.Leaving? || w.place.Left?) ==> w.place.cancelled
  }

  lemma StepLeavesCancelled(s: State, a: Action)
    requires Enabled(s, a)
    requires forall i :: 0 <= i < |s.workers| ==> LeavesCancelled(s.workers[i])
    ensures forall i :: 0 <= i < |Apply(s, a).workers| ==> LeavesCancelled(Apply(s, a).workers[i])
  {
  }

  lemma {:induction false} MemQWorkersLeaveCancelled(actions: seq<Action>)
    requires IsRun(INITIAL, actions)
    ensures forall i :: 0 <= i < |Run(INITIAL, actions).workers| ==> LeavesCancelled(Run(INITIAL, actions).workers[i])
  {
    if actions != [] {
      MemQWorkersLeaveCancelled(actions[..|actions| - 1]);
      StepLeavesCancelled(Run(INITIAL, actions[..|actions| - 1]), actions[|actions| - 1]);
    }
  }

  // ---------- Completion ----------

  /** Who ends without ending the process was cancelled, or is not to exit on completion; and a
      queue worker that goes on after an empty result is not to, either. */
  predicate MayLive(w: Worker, cancelled: bool) {
    && ((w.place.Leaving? || w.place.Left?) && w.place.cancelled ==> cancelled)
    && (w.place == Reporting(M.Empty) ==> !w.spawn.config.exitOnComplete)
    && (w.place.Gone? && !cancelled ==> w.spawn.PlainSpawn? && !w.spawn.config.exitOnComplete)
  }

  ghost predicate AllMayLive(s: State) {
    Shaped(s) && forall i :: 0 <= i < |s.workers| ==> LeavesCancelled(s.workers[i]) && MayLive(s.workers[i], s.kg.cancelled[i])
  }

  lemma StepKeepsLife(s: State, a: Action)
    requires AllMayLive(s) && Enabled(s, a) && Shaped(Apply(s, a))
    ensures AllMayLive(Apply(s, a))
  {
    var s' := Apply(s, a);
    forall i | 0 <= i < |s'.workers| ensures LeavesCancelled(s'.workers[i]) && MayLive(s'.workers[i], s'.kg.cancelled[i]) {
      if i < |s.workers| {
        assert LeavesCancelled(s.workers[i]) && MayLive(s.workers[i], s.kg.cancelled[i]);
        assert s.kg.cancelled[i] ==> s'.kg.cancelled[i];
      }
    }
  }

  lemma {:induction false} EveryWorkerMayLive(actions: seq<Action>)
    requires IsRun(INITIAL, actions)
    ensures AllMayLive(Run(INITIAL, actions))
  {
    EveryStateIsTidy(actions);
    if actions != [] {
      EveryWorkerMayLive(actions[..|actions| - 1]);
      StepKeepsLife(Run(INITIAL, actions[..|actions| - 1]), actions[|actions| - 1]);
    }
  }

  /** In every interleaving: a worker that is gone while the process lives on had its context
      cancelled, or is a plain one that is not to exit on completion; and after an empty result a
      queue worker goes on only if it is not to exit. */
  lemma {:induction false} CompletionExits(actions: seq<Action>, i: nat)
    requires IsRun(INITIAL, actions) && i < |Run(INITIAL, actions).workers|
    ensures var s := Run(INITIAL, actions);
      && i < |s.kg.cancelled|
      && (s.workers[i].place.Gone? ==> s.kg.cancelled[i] || (s.workers[i].spawn.PlainSpawn? && !s.workers[i].spawn.config.exitOnComplete))
      && (s.workers[i].place == Reporting(M.Empty) ==> !s.workers[i].spawn.config.exitOnComplete)
  {
    EveryWorkerMayLive(actions);
    assert MayLive(Run(INITIAL, actions).workers[i], Run(INITIAL, actions).kg.cancelled[i]);
  }

  // ---------- Cancellation ----------

  function PrintedBy(log: seq<LogEntry>, w: nat): nat {
    if log == [] then 0 else PrintedBy(log[..|log| - 1], w) + (if log[|log| - 1].w == w then 1 else 0)
  }

  function ItemsBy(log: seq<LogEntry>, w: nat): nat {
    if log == [] then 0 else ItemsBy(log[..|log| - 1], w) + (if IsItemBy(log[|log| - 1], w) then 1 else 0)
  }

  predicate IsItemBy(e: LogEntry, w: nat) {
    e.w == w && (e.line.Item? || e.line.MemQItem?)
  }

  /** How many lines a worker whose context is cancelled can still print. */
  function LinesLeft(w: Worker): nat {
    match w.place
    case Starting => 2
    case Working => 2
    case Dequeuing => 2
    case Reporting(_) => 2
    case Polling => 1
    case Leaving(_) => 1
    case Left(_) => 0
    case Gone => 0
  }

  function ItemsLeft(w: Worker): nat {
    if w.place.Working? || w.place.Dequeuing? || w.place == Reporting(M.Message) then 1 else 0
  }

  lemma CountsGrow(log: seq<LogEntry>, e: LogEntry, w: nat)
    ensures PrintedBy(log + [e], w) == PrintedBy(log, w) + (if e.w == w then 1 else 0)
    ensures ItemsBy(log + [e], w) == ItemsBy(log, w) + (if IsItemBy(e, w) then 1 else 0)
  {
    assert (log + [e])[..|log|] == log;
  }

  // ---------- What a queue worker prints ----------

  /** How many messages worker `w` was handed. */
  function Messages(actions: seq<Action>, w: nat): nat {
    if actions == [] then 0
    else Messages(actions[..|actions| - 1], w) + (if actions[|actions| - 1] == Dequeued(w, M.Message) then 1 else 0)
  }

  predicate ItemsOf(w: Worker, items: nat, handed: nat) {
    w.spawn.MemQSpawn? ==> items + (if w.place == Reporting(M.Message) then 1 else 0) == handed && !w.place.Working?
  }

  ghost predicate ItemsMatch(s: State, handed: nat, w: nat) {
    if w < |s.workers| then ItemsOf(s.workers[w], ItemsBy(s.log, w), handed) else handed == ItemsBy(s.log, w) == 0
  }

  lemma PrintMatches(w: Worker, items: nat, handed: nat)
    requires ItemsOf(w, items, handed) && NextLine(w).Some?
    ensures ItemsOf(AfterPrint(w), items + (if NextLine(w).value.Item? || NextLine(w).value.MemQItem? then 1 else 0), handed)
  {
  }

  lemma CheckMatches(w: Worker, items: nat, handed: nat, cancelled: bool, choice: Choice)
    requires ItemsOf(w, items, handed) && CanChoose(w, cancelled, choice)
    ensures ItemsOf(AfterCheck(w, choice), items, handed)
  {
  }

  lemma PrintMatchesItems(s: State, printer: nat, handed: nat, w: nat)
    requires Enabled(s, Print(printer)) && ItemsMatch(s, handed, w)
    ensures ItemsMatch(Apply(s, Print(printer)), handed, w)
  {
    CountsGrow(s.log, LogEntry(printer, NextLine(s.workers[printer]).value), w);
    if printer == w {
      PrintMatches(s.workers[w], ItemsBy(s.log, w), handed);
    }
  }

  lemma SilentStepMatchesItems(s: State, a: Action, handed: nat, w: nat)
    requires Enabled(s, a) && !a.Print? && ItemsMatch(s, handed, w)
    ensures ItemsMatch(Apply(s, a), handed + (if a == Dequeued(w, M.Message) then 1 else 0), w)
  {
    assert Apply(s, a).log == s.log;
    if a.Check? && a.w == w {
      CheckMatches(s.workers[w], ItemsBy(s.log, w), handed, s.kg.cancelled[w], a.choice);
    }
  }

  /** In every interleaving a queue worker has printed exactly one item for every message it was
      handed, but for the one it may be about to print. */
  lemma {:induction false} EveryMessageIsAnItem(actions: seq<Action>, w: nat)
    requires IsRun(INITIAL, actions)
    ensures ItemsMatch(Run(INITIAL, actions), Messages(actions, w), w)
  {
    if actions != [] {
      EveryMessageIsAnItem(actions[..|actions| - 1], w);
      var s, a, handed := Run(INITIAL, actions[..|actions| - 1]), actions[|actions| - 1], Messages(actions[..|actions| - 1], w);
      if a.Print? {
        PrintMatchesItems(s, a.w, handed, w);
      } else {
        SilentStepMatchesItems(s, a, handed, w);
      }
    }
  }

  lemma PrintUsesUpALine(w: Worker)
    requires NextLine(w).Some?
    ensures var line, w' := NextLine(w).value, AfterPrint(w);
      && LinesLeft(w') + 1 <= LinesLeft(w)
      && ItemsLeft(w') + (if line.Item? || line.MemQItem? then 1 else 0) <= ItemsLeft(w)
  {
  }

  lemma CancelledCheckLeaves(w: Worker, choice: Choice)
    requires CanChoose(w, true, choice)
    ensures LinesLeft(AfterCheck(w, choice)) <= LinesLeft(w) && ItemsLeft(AfterCheck(w, choice)) <= ItemsLeft(w)
  {
  }

  lemma StaysCancelled(s: State, a: Action, w: nat)
    requires Enabled(s, a) && w < |s.workers| && s.kg.cancelled[w]
    ensures var s' := Apply(s, a); Shaped(s') && w < |s'.workers| && s'.kg.cancelled[w]
  {
  }

  lemma CancelledStep(s: State, a: Action, w: nat)
    requires Enabled(s, a) && w < |s.workers| && s.kg.cancelled[w]
    ensures var s' := Apply(s, a);
      && Shaped(s') && w < |s'.workers| && s'.kg.cancelled[w]
      && PrintedBy(s'.log, w) + LinesLeft(s'.workers[w]) <= PrintedBy(s.log, w) + LinesLeft(s.workers[w])
      && ItemsBy(s'.log, w) + ItemsLeft(s'.workers[w]) <= ItemsBy(s.log, w) + ItemsLeft(s.workers[w])
  {
    StaysCancelled(s, a, w);
    if a.Print? {
      CountsGrow(s.log, LogEntry(a.w, NextLine(s.workers[a.w]).value), w);
      PrintUsesUpALine(s.workers[a.w]);
    } else if a.Check? && a.w == w {
      CancelledCheckLeaves(s.workers[w], a.choice);
    }
  }

  lemma {:induction false} CancelledRun(s: State, actions: seq<Action>, w: nat)
    requires IsRun(s, actions)
    requires Shaped(s) && w < |s.workers| && s.kg.cancelled[w]
    ensures var s' := Run(s, actions);
      && Shaped(s') && w < |s'.workers| && s'.kg.cancelled[w]
      && PrintedBy(s'.log, w) + LinesLeft(s'.workers[w]) <= PrintedBy(s.log, w) + LinesLeft(s.workers[w])
      && ItemsBy(s'.log, w) + ItemsLeft(s'.workers[w]) <= ItemsBy(s.log, w) + ItemsLeft(s.workers[w])
  {
    if actions != [] {
      var front := actions[..|actions| - 1];
      CancelledRun(s, front, w);
      CancelledStep(Run(s, front), actions[|actions| - 1], w);
    }
  }

  /** Once its context is cancelled, a worker of either kind prints at most two more lines, at
      most one of them an item, in every continuation. */
  lemma CancelledWorkersFallSilent(s: State, actions: seq<Action>, w: nat)
    requires IsRun(s, actions)
    requires Shaped(s) && w < |s.workers| && s.kg.cancelled[w]
    ensures var s' := Run(s, actions);
      && PrintedBy(s'.log, w) <= PrintedBy(s.log, w) + 2
      && ItemsBy(s'.log, w) <= ItemsBy(s.log, w) + 1
  {
    CancelledRun(s, actions, w);
  }
}
