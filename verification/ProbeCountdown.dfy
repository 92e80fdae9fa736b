/** What a debug probe owes its callers: the status of every request, its log and its countdown, as
    functions of the whole sequence of configuration writes and requests. */
module ProbeCountdown {
  import opened BoundedHistory

  type Time = int

  const STATUS_OK: int := 200
  const STATUS_ERROR: int := 500

  datatype ProbeHistory = ProbeHistory(id: int, when: Time, code: int)

  /** One critical section that matters: a configuration write or a probe request. */
  datatype Event = Set(failNext: int) | Request(now: Time)

  // ---------- The reference: what a whole run of events should have answered ----------

  /** The value in force: the last one set, or 0 before any. */
  function LastSet(events: seq<Event>): int {
    if events == [] then 0 else
      var last := events[|events| - 1];
      if last.Set? then last.failNext else LastSet(events[..|events| - 1])
  }

  /** How many requests arrived since that value was set. */
  function RequestsSince(events: seq<Event>): nat {
    if events == [] || events[|events| - 1].Set? then 0
    else 1 + RequestsSince(events[..|events| - 1])
  }

  /** The status a request gets when it arrives after `events`: it fails if failures are
      permanent, or if fewer requests than configured arrived before it. */
  function ExpectedCode(events: seq<Event>): int {
    if LastSet(events) < 0 || RequestsSince(events) < LastSet(events) then STATUS_ERROR else STATUS_OK
  }

  /** The unbounded log: one entry a request, numbered from 1. */
  function ExpectedLog(events: seq<Event>): seq<ProbeHistory> {
    if events == [] then [] else
      var before := events[..|events| - 1];
      match events[|events| - 1]
      case Set(_) => ExpectedLog(before)
      case Request(now) =>
        ExpectedLog(before) + [ProbeHistory(|ExpectedLog(before)| + 1, now, ExpectedCode(before))]
  }

  /** What is left of the countdown. */
  function ExpectedFailNext(events: seq<Event>): int {
    var c := LastSet(events);
    if c <= 0 then c else if RequestsSince(events) < c then c - RequestsSince(events) else 0
  }

  function Failures(log: seq<ProbeHistory>): nat {
    if log == [] then 0
    else Failures(log[..|log| - 1]) + (if log[|log| - 1].code == 500 then 1 else 0)
  }

  /** One more event, seen by each of the reference functions. */
  lemma EventsSnoc(before: seq<Event>, e: Event)
    ensures LastSet(before + [e]) == if e.Set? then e.failNext else LastSet(before)
    ensures RequestsSince(before + [e]) == if e.Set? then 0 else 1 + RequestsSince(before)
    ensures ExpectedLog(before + [e]) ==
      if e.Set? then ExpectedLog(before)
      else ExpectedLog(before) + [ProbeHistory(|ExpectedLog(before)| + 1, e.now, ExpectedCode(before))]
  {
    assert (before + [e])[..|before|] == before;
  }

  /** Appending a request's entry and trimming keeps the window over the reference log. */
  lemma WindowSnoc(events: seq<Event>, now: Time)
    ensures var log := ExpectedLog(events);
      AppendAndTrim(MAX_HISTORY, LastN(MAX_HISTORY, log), ProbeHistory(|log| + 1, now, ExpectedCode(events)))
      == LastN(MAX_HISTORY, ExpectedLog(events + [Request(now)]))
  {
    var log, entry := ExpectedLog(events), ProbeHistory(|ExpectedLog(events)| + 1, now, ExpectedCode(events));
    LogSnoc(events, now);
    AppendKeepsWindow(MAX_HISTORY, log, entry);
  }

  lemma LogSnoc(events: seq<Event>, now: Time)
    ensures ExpectedLog(events + [Request(now)]) ==
      ExpectedLog(events) + [ProbeHistory(|ExpectedLog(events)| + 1, now, ExpectedCode(events))]
  {
    EventsSnoc(events, Request(now));
  }

  // ---------- What a run of events guarantees ----------

  function Requests(times: seq<Time>): seq<Event> {
    seq(|times|, i requires 0 <= i < |times| => Request(times[i]))
  }

  /** One 200 for each request. */
  ghost predicate AllHealthy(events: seq<Event>, log: seq<ProbeHistory>) {
    |log| == |events| && forall i :: 0 <= i < |log| ==> events[i].Request? && log[i] == ProbeHistory(i + 1, events[i].now, 200)
  }

  lemma AllHealthySnoc(events: seq<Event>, log: seq<ProbeHistory>, now: Time)
    requires AllHealthy(events, log)
    ensures AllHealthy(events + [Request(now)], log + [ProbeHistory(|log| + 1, now, 200)])
  {
  }

  /** A probe nobody has configured: every request is answered 200, the countdown stays 0, and the
      log holds one 200 for each request. */
  lemma {:induction false} NeverSetNeverFails(events: seq<Event>)
    requires forall i :: 0 <= i < |events| ==> events[i].Request?
    ensures LastSet(events) == 0
    ensures ExpectedCode(events) == 200 && ExpectedFailNext(events) == 0
    ensures AllHealthy(events, ExpectedLog(events))
  {
    if events != [] {
      var front, now := events[..|events| - 1], events[|events| - 1].now;
      assert events == front + [Request(now)];
      NeverSetNeverFails(front);
      EventsSnoc(front, Request(now));
      AllHealthySnoc(front, ExpectedLog(front), now);
    }
  }

  /** Log entries are numbered 1, 2, ... without a gap, so the stored window ends at lastID. */
  lemma {:induction false} LogIsNumbered(events: seq<Event>)
    ensures forall i :: 0 <= i < |ExpectedLog(events)| ==> ExpectedLog(events)[i].id == i + 1
    ensures var window := LastN(MAX_HISTORY, ExpectedLog(events));
      forall i :: 0 <= i < |window| ==> window[i].id == |ExpectedLog(events)| - |window| + 1 + i
  {
    if events != [] {
      LogIsNumbered(events[..|events| - 1]);
    }
  }

  /** The entries `times` should produce after a set to `config`: failures while fewer than
      `config` of them have arrived, always for a negative value, never for zero. */
  function Countdown(logged: nat, config: int, times: seq<Time>): seq<ProbeHistory> {
    seq(|times|, i requires 0 <= i < |times| =>
      ProbeHistory(logged + i + 1, times[i], if config < 0 || i < config then 500 else 200))
  }

  function Run(before: seq<Event>, config: int, times: seq<Time>): seq<Event> {
    before + [Set(config)] + Requests(times)
  }

  lemma RunPrefix(before: seq<Event>, config: int, times: seq<Time>)
    ensures times == [] ==> Run(before, config, times) == before + [Set(config)]
    ensures times != [] ==>
      Run(before, config, times) == Run(before, config, times[..|times| - 1]) + [Request(times[|times| - 1])]
  {
  }

  lemma {:induction false} SinceSet(before: seq<Event>, config: int, times: seq<Time>)
    ensures LastSet(Run(before, config, times)) == config
    ensures RequestsSince(Run(before, config, times)) == |times|
  {
    RunPrefix(before, config, times);
    if times == [] {
      EventsSnoc(before, Set(config));
    } else {
      SinceSet(before, config, times[..|times| - 1]);
      EventsSnoc(Run(before, config, times[..|times| - 1]), Request(times[|times| - 1]));
    }
  }

  lemma CountdownSnoc(logged: nat, config: int, times: seq<Time>)
    requires times != []
    ensures var n := |times| - 1;
      Countdown(logged, config, times) == Countdown(logged, config, times[..n])
        + [ProbeHistory(logged + n + 1, times[n], if config < 0 || n < config then 500 else 200)]
  {
  }

  /** Whatever happened before, a set to `config` makes the requests that follow it answer
      exactly as the countdown says, appended to the log as it was. */
  lemma {:induction false} CountdownRun(before: seq<Event>, config: int, times: seq<Time>)
    ensures ExpectedLog(Run(before, config, times)) ==
            ExpectedLog(before) + Countdown(|ExpectedLog(before)|, config, times)
  {
    RunPrefix(before, config, times);
    if times == [] {
      EventsSnoc(before, Set(config));
    } else {
      var front := times[..|times| - 1];
      CountdownRun(before, config, front);
      SinceSet(before, config, front);
      EventsSnoc(Run(before, config, front), Request(times[|times| - 1]));
      CountdownSnoc(|ExpectedLog(before)|, config, times);
    }
  }

  /** The same, counted: of `k` requests after a set to `config`, min(config, k) fail when
      config > 0 (leaving max(0, config - k)), all when config < 0 and none when config == 0. */
  lemma CountdownFailures(before: seq<Event>, config: int, times: seq<Time>)
    ensures var run, k := Run(before, config, times), |times|;
      && Failures(ExpectedLog(run)) - Failures(ExpectedLog(before)) ==
         (if config < 0 || k < config then k else config)
      && ExpectedFailNext(run) ==
         (if config < 0 then config else if k < config then config - k else 0)
  {
    CountdownRun(before, config, times);
    SinceSet(before, config, times);
    FailuresOfCountdown(ExpectedLog(before), config, times);
  }

  lemma FailuresSnoc(log: seq<ProbeHistory>, h: ProbeHistory)
    ensures Failures(log + [h]) == Failures(log) + (if h.code == 500 then 1 else 0)
  {
    assert (log + [h])[..|log|] == log;
  }

  lemma {:induction false} FailuresOfCountdown(log: seq<ProbeHistory>, config: int, times: seq<Time>)
    ensures Failures(log + Countdown(|log|, config, times)) - Failures(log) ==
            (if config < 0 || |times| < config then |times| else config)
  {
    if times == [] {
      assert log + Countdown(|log|, config, times) == log;
    } else {
      var front := times[..|times| - 1];
      var countdown := Countdown(|log|, config, times);
      FailuresOfCountdown(log, config, front);
      CountdownSnoc(|log|, config, times);
      assert log + countdown == log + Countdown(|log|, config, front) + [countdown[|times| - 1]];
      FailuresSnoc(log + Countdown(|log|, config, front), countdown[|times| - 1]);
    }
  }
}
