/** The key generator's supervisor: one mutex, at most one running workload, a bounded history
    of what workloads print. */
module KeyGen {
  import opened BoundedHistory

  datatype Option<T> = None | Some(value: T)

  datatype Config = Config(enable: bool, numToGen: int, timeToRun: int, memQServer: string, memQQueue: string,
                           exitOnComplete: bool, exitCode: int)

  /** The zero value of the configuration: nothing enabled. */
  const ZERO_CONFIG: Config := Config(false, 0, 0, "", "", false, 0)

  /** What a worker prints, with its wording left opaque. Only plain workloads print an id. */
  datatype Line =
    | Started(id: nat) | Item(id: nat, generated: nat, limit: Option<int>) | Exiting(id: nat)
    | MemQStarted | MemQItem | MemQError | MemQEmpty | MemQShutdown

  datatype History = History(id: int, data: Line)

  /** A worker the supervisor started. The i-th start has the i-th context. */
  datatype Spawn = PlainSpawn(id: nat, config: Config) | MemQSpawn(config: Config)

  // ---------- The supervisor's state, and its two critical sections as functions ----------

  /** `cancel` is the context that cancelFunc cancels; `cancelled` says of every context ever
      made whether it has been cancelled. */
  datatype Supervisor = Supervisor(
    config: Config, history: seq<History>, nextHistoryID: nat, nextWorkloadID: nat,
    cancel: Option<nat>, active: int, cancelled: seq<bool>, started: seq<Spawn>)

  const NEW_SUPERVISOR: Supervisor := Supervisor(ZERO_CONFIG, [], 0, 0, None, 0, [], [])

  /** `cancel`, if set, names the latest context. */
  predicate WellFormed(s: Supervisor) {
    && |s.cancelled| == |s.started|
    && (s.cancel.Some? ==> s.cancel.value + 1 == |s.cancelled|)
  }

  predicate HasCurrent(s: Supervisor) {
    s.cancel.Some? ==> s.cancel.value < |s.cancelled|
  }

  function CancelCurrent(s: Supervisor): Supervisor
    requires HasCurrent(s)
  {
    if s.cancel.Some? then s.(cancelled := s.cancelled[s.cancel.value := true], cancel := None) else s
  }

  /** Enable was read as true: the gauge is set and a context made for the worker to come. */
  function Opened(s: Supervisor): Supervisor {
    s.(active := 1, cancel := Some(|s.cancelled|), cancelled := s.cancelled + [false])
  }

  predicate WantsQueue(c: Config) { |c.memQQueue| > 0 }

  predicate WantsServer(c: Config) { |c.memQServer| > 0 }

  /** The worker that starts now, with a copy of the configuration as it is now. */
  function SpawnOf(s: Supervisor, memQ: bool): Spawn {
    if memQ then MemQSpawn(s.config) else PlainSpawn(s.nextWorkloadID, s.config)
  }

  function Launched(s: Supervisor, memQ: bool): Supervisor {
    s.(started := s.started + [SpawnOf(s, memQ)],
       nextWorkloadID := if memQ then s.nextWorkloadID else s.nextWorkloadID + 1)
  }

  /** The lock does not protect the configuration. What other callers last wrote to it before
      each of the section's reads: of Enable, of the queue, of the server, and of the copy. */
  datatype Writes = Writes(atEnable: Option<Config>, atQueue: Option<Config>, atServer: Option<Config>, atCopy: Option<Config>)

  const NO_WRITES: Writes := Writes(None, None, None, None)

  function Latest(c: Config, w: Option<Config>): Config {
    if w.Some? then w.value else c
  }

  /** What is stored when the queue is read, when the server is read, and at the copy, if `c` was
      when Enable was read. The server is read only if there is a queue. */
  function AtQueue(c: Config, w: Writes): Config { Latest(c, w.atQueue) }

  function AtServer(c: Config, w: Writes): Config { Latest(AtQueue(c, w), w.atServer) }

  function AtCopy(c: Config, w: Writes): Config { Latest(AtServer(c, w), w.atCopy) }

  predicate PicksMemQ(c: Config, w: Writes) {
    WantsQueue(AtQueue(c, w)) && WantsServer(AtServer(c, w))
  }

  function Restarted(s: Supervisor, w: Writes): Supervisor
    requires HasCurrent(s)
  {
    var stopped := CancelCurrent(s).(config := Latest(s.config, w.atEnable));
    if !stopped.config.enable then stopped.(active := 0) else Completed(stopped, w)
  }

  /** The rest of the section, once Enable was read as true. */
  function Completed(s: Supervisor, w: Writes): Supervisor {
    Launched(Opened(s).(config := AtCopy(s.config, w)), PicksMemQ(s.config, w))
  }

  /** A restart nobody writes into runs what the stored configuration asks for. */
  lemma UndisturbedRestart(s: Supervisor)
    requires WellFormed(s) && HasCurrent(s)
    ensures var r := Restarted(s, NO_WRITES);
      && r.config == s.config
      && (r.cancel.Some? <==> s.config.enable)
      && (r.cancel.Some? ==>
            && !r.cancelled[r.cancel.value]
            && r.started[r.cancel.value] ==
               if s.config.memQQueue != "" && s.config.memQServer != "" then MemQSpawn(s.config)
               else PlainSpawn(s.nextWorkloadID, s.config))
      && r.active == (if s.config.enable then 1 else 0)
      && (forall i :: 0 <= i < |s.cancelled| ==> r.cancelled[i] == (s.cancelled[i] || s.cancel == Some(i)))
  {
  }

  function Printed(s: Supervisor, line: Line): Supervisor {
    s.(history := AppendAndTrim(MAX_HISTORY, s.history, History(s.nextHistoryID, line)),
       nextHistoryID := s.nextHistoryID + 1)
  }

  // ---------- The supervisor as an object ----------

  class Context {
    var done: bool

    constructor ()
      ensures !done
    {
      done := false;
    }
  }

  class KeyGen {
    var config: Config
    var history: seq<History>
    var nextHistoryID: nat
    var nextWorkloadID: nat
    var cancelFunc: Context?
    var active: int
    ghost var contexts: seq<Context>
    ghost var started: seq<Spawn>

    ghost predicate Valid() reads this {
      && |contexts| == |started|
      && (forall i, j :: 0 <= i < j < |contexts| ==> contexts[i] != contexts[j])
      && (cancelFunc != null ==> contexts != [] && cancelFunc == contexts[|contexts| - 1])
    }

    ghost function View(): (s: Supervisor)
      reads this, contexts
      requires Valid()
      ensures WellFormed(s)
    {
      Supervisor(config, history, nextHistoryID, nextWorkloadID,
                 if cancelFunc == null then None else Some(|contexts| - 1), active,
                 seq(|contexts|, i requires 0 <= i < |contexts| reads this, contexts => contexts[i].done), started)
    }

    constructor ()
      ensures Valid() && View() == NEW_SUPERVISOR
    {
      config, history, nextHistoryID, nextWorkloadID := ZERO_CONFIG, [], 0, 0;
      cancelFunc, active := null, 0;
      contexts, started := [], [];
    }

    /** Cancels the running workload, then starts the one the configuration asks for, as it is
        at each read. */
    method Restart(w: Writes)
      requires Valid()
      modifies this, contexts
      ensures Valid() && View() == Restarted(old(View()), w)
      ensures fresh(contexts[|old(contexts)|..]) && old(contexts) <= contexts
    {
      CancelRunning();
      OthersWrite(w.atEnable);
      if config.enable {
        StartConfigured(w);
      } else {
        active := 0;
      }
    }

    /** What other callers do to the configuration meanwhile. */
    method OthersWrite(c: Option<Config>)
      requires Valid()
      modifies this`config
      ensures Valid() && View() == old(View()).(config := Latest(old(config), c))
    {
      if c.Some? {
        config := c.value;
      }
    }

    /** The first half of Restart. */
    method CancelRunning()
      requires Valid()
      modifies this`cancelFunc, contexts
      ensures Valid() && cancelFunc == null && View() == CancelCurrent(old(View()))
    {
      if cancelFunc != null {
        cancelFunc.done := true;
        cancelFunc := null;
      }
      assert View().cancelled == CancelCurrent(old(View())).cancelled;
    }

    /** The second half of Restart, once Enable was read as true. */
    method StartConfigured(w: Writes)
      requires Valid() && cancelFunc == null
      modifies this
      ensures Valid() && View() == Completed(old(View()), w)
      ensures fresh(contexts[|old(contexts)|..]) && old(contexts) <= contexts
    {
      active := 1;
      var ctx := new Context();
      cancelFunc := ctx;
      var memQ := ReadKind(w);
      if memQ {
        started := started + [MemQSpawn(config)];
      } else {
        started := started + [PlainSpawn(nextWorkloadID, config)];
        nextWorkloadID := nextWorkloadID + 1;
      }
      contexts := contexts + [ctx];
      assert View().cancelled == old(View()).cancelled + [false];
    }

    /** The two reads that decide the kind of worker, and what is stored when it is copied. */
    method ReadKind(w: Writes) returns (memQ: bool)
      modifies this`config
      ensures memQ <==> PicksMemQ(old(config), w)
      ensures config == AtCopy(old(config), w)
    {
      if w.atQueue.Some? {
        config := w.atQueue.value;
      }
      memQ := |config.memQQueue| > 0;
      if w.atServer.Some? {
        config := w.atServer.value;
      }
      if memQ {
        memQ := |config.memQServer| > 0;
      }
      if w.atCopy.Some? {
        config := w.atCopy.value;
      }
    }

    /** Appends one line under the lock and keeps the last MAX_HISTORY. */
    method WorkloadOutput(line: Line)
      requires Valid()
      modifies this
      ensures Valid() && View() == Printed(old(View()), line)
      ensures contexts == old(contexts)
    {
      history := history + [History(nextHistoryID, line)];
      if |history| > MAX_HISTORY {
        history := history[|history| - MAX_HISTORY..];
      }
      nextHistoryID := nextHistoryID + 1;
    }

    /** The write happens outside the lock: whatever others write before the section's first
        read is `w.atEnable`. */
    method LoadConfig(c: Config, w: Writes)
      requires Valid()
      modifies this, contexts
      ensures Valid() && View() == Restarted(old(View()).(config := c), w)
    {
      config := c;
      Restart(w);
    }
  }
}
