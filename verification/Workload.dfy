/** A plain workload: generate items until cancelled, timed out or the quota is met. */
module Workload {
  import opened KeyGen

  /** What one look at the channels finds ready; when both are, `select` may take either. */
  datatype Poll = Poll(cancelled: bool, fired: bool, takeCancel: bool)

  datatype Choice = Cancelled | TimedOut | QuotaMet | Continue

  /** How far a run got: still looping when the observed polls ran out, stopped, or the whole
      process exited. */
  datatype End = StillRunning | Stopped(cancelled: bool) | ProcessExited(code: int)

  /** The decision of one check after `generated` items. A timer exists only when TimeToRun > 0. */
  function Decide(c: Config, generated: nat, poll: Poll): Choice {
    var timedOut := c.timeToRun > 0 && poll.fired;
    if poll.cancelled && (!timedOut || poll.takeCancel) then Cancelled
    else if timedOut then TimedOut
    else if c.numToGen > 0 && generated >= c.numToGen then QuotaMet
    else Continue
  }

  function Limit(c: Config): Option<int> {
    if c.numToGen > 0 then Some(c.numToGen) else None
  }

  /** The lines of a workload that has produced `generated` items. */
  function Lines(id: nat, c: Config, generated: nat): seq<Line> {
    if generated == 0 then [Started(id)]
    else Lines(id, c, generated - 1) + [Item(id, generated, Limit(c))]
  }

  /** "Starting", then item k of n (or of no limit) for k = 1, 2, ... */
  lemma {:induction false} LinesAre(id: nat, c: Config, generated: nat)
    ensures |Lines(id, c, generated)| == generated + 1
    ensures Lines(id, c, generated)[0] == Started(id)
    ensures forall k :: 1 <= k <= generated ==>
      Lines(id, c, generated)[k] == Item(id, k, if c.numToGen > 0 then Some(c.numToGen) else None)
  {
    if generated > 0 {
      LinesAre(id, c, generated - 1);
    }
  }

  /** When a check stops the loop, and with what: a cancelled context or a timer if there is one,
      either if both are ready, and the quota only if neither is. */
  lemma DecideMeans(c: Config, generated: nat, poll: Poll)
    ensures Decide(c, generated, poll) == Continue <==>
      !poll.cancelled && !(c.timeToRun > 0 && poll.fired) && !(c.numToGen > 0 && generated >= c.numToGen)
    ensures Decide(c, generated, poll) == Cancelled <==>
      poll.cancelled && (poll.takeCancel || !poll.fired || c.timeToRun <= 0)
  {
  }

  /** The first poll that stops the loop, or |polls|. Each earlier one lets an item through, so
      it is also the number of items. */
  function StopIndex(c: Config, polls: seq<Poll>, from: nat): (n: nat)
    requires from <= |polls|
    ensures from <= n <= |polls|
    ensures forall i :: from <= i < n ==> Decide(c, i, polls[i]) == Continue
    ensures n < |polls| ==> Decide(c, n, polls[n]) != Continue
    decreases |polls| - from
  {
    if from == |polls| || Decide(c, from, polls[from]) != Continue then from
    else StopIndex(c, polls, from + 1)
  }

  class Workload {
    const id: nat
    const c: Config
    var generated: nat
    var timed: bool
    var out: seq<Line>

    constructor (id: nat, c: Config)
      ensures this.id == id && this.c == c && generated == 0 && out == []
    {
      this.id, this.c, generated, timed, out := id, c, 0, false, [];
    }

    /** Runs against an observed sequence of polls. */
    method StartWork(polls: seq<Poll>) returns (end: End)
      requires generated == 0 && out == []
      modifies this
      ensures generated == StopIndex(c, polls, 0)
      ensures out == Lines(id, c, generated) + (if end.StillRunning? then [] else [Exiting(id)])
      ensures end.StillRunning? <==> generated == |polls|
      ensures !end.StillRunning? ==>
        var why := Decide(c, generated, polls[generated]);
        end == if why == Cancelled || !c.exitOnComplete then Stopped(why == Cancelled) else ProcessExited(c.exitCode)
    {
      out := out + [Started(id)];
      if c.timeToRun > 0 {
        timed := true;
      } else {
        timed := false;
      }
      var i := 0;
      while i < |polls|
        invariant 0 <= i <= |polls|
        invariant generated == i
        invariant timed <==> c.timeToRun > 0
        invariant out == Lines(id, c, generated)
        invariant StopIndex(c, polls, 0) == StopIndex(c, polls, i)
      {
        var stop, e := IsDone(polls[i]);
        if stop {
          return e;
        }
        ItemDone();
        i := i + 1;
      }
      end := StillRunning;
    }

    method IsDone(poll: Poll) returns (stop: bool, end: End)
      requires timed <==> c.timeToRun > 0
      modifies this`out
      ensures stop <==> Decide(c, generated, poll) != Continue
      ensures out == old(out) + (if stop then [Exiting(id)] else [])
      ensures stop ==>
        var why := Decide(c, generated, poll);
        end == if why == Cancelled || !c.exitOnComplete then Stopped(why == Cancelled) else ProcessExited(c.exitCode)
      ensures stop <==> poll.cancelled || (c.timeToRun > 0 && poll.fired) || (c.numToGen > 0 && generated >= c.numToGen)
    {
      if poll.cancelled && (!(timed && poll.fired) || poll.takeCancel) {
        end := Done(true);
        return true, end;
      } else if timed && poll.fired {
        end := Done(false);
        return true, end;
      }
      if c.numToGen > 0 && generated >= c.numToGen {
        end := Done(false);
        return true, end;
      }
      return false, StillRunning;
    }

    method Done(canceled: bool) returns (end: End)
      modifies this`out
      ensures out == old(out) + [Exiting(id)]
      ensures end == if canceled || !c.exitOnComplete then Stopped(canceled) else ProcessExited(c.exitCode)
    {
      out := out + [Exiting(id)];
      if !canceled && c.exitOnComplete {
        return ProcessExited(c.exitCode);
      }
      end := Stopped(canceled);
    }

    method ItemDone()
      modifies this`generated, this`out
      ensures generated == old(generated) + 1
      ensures out == old(out) + [Item(id, generated, Limit(c))]
      ensures out[|out| - 1] == Item(id, old(generated) + 1, if c.numToGen > 0 then Some(c.numToGen) else None)
    {
      generated := generated + 1;
      var limit := None;
      if c.numToGen > 0 {
        limit := Some(c.numToGen);
      }
      out := out + [Item(id, generated, limit)];
    }
  }

  /** What the loop printed, the polls it passed, and the one it stopped at. */
  lemma {:induction false} WhatARunDid(id: nat, c: Config, polls: seq<Poll>, n: nat)
    requires n == StopIndex(c, polls, 0)
    ensures |Lines(id, c, n)| == n + 1 && Lines(id, c, n)[0] == Started(id)
    ensures forall k :: 1 <= k <= n ==> Lines(id, c, n)[k] == Item(id, k, if c.numToGen > 0 then Some(c.numToGen) else None)
    ensures forall i :: 0 <= i < n ==>
      !polls[i].cancelled && !(c.timeToRun > 0 && polls[i].fired) && !(c.numToGen > 0 && i >= c.numToGen)
    ensures n < |polls| ==>
      polls[n].cancelled || (c.timeToRun > 0 && polls[n].fired) || (c.numToGen > 0 && n >= c.numToGen)
  {
    LinesAre(id, c, n);
    forall i | 0 <= i < n
      ensures !polls[i].cancelled && !(c.timeToRun > 0 && polls[i].fired) && !(c.numToGen > 0 && i >= c.numToGen)
    {
      DecideMeans(c, i, polls[i]);
    }
    if n < |polls| {
      DecideMeans(c, n, polls[n]);
    }
  }

  // ---------- Quota and termination ----------

  /** A quota bounds the items for every behaviour of clock and context, and one poll more than
      the quota always ends the loop. */
  lemma {:induction false} QuotaBoundsItems(c: Config, polls: seq<Poll>, from: nat)
    requires c.numToGen > 0 && from <= |polls| && from <= c.numToGen
    ensures StopIndex(c, polls, from) <= c.numToGen
    ensures |polls| > c.numToGen ==> StopIndex(c, polls, from) < |polls|
    decreases |polls| - from
  {
    if from < |polls| && Decide(c, from, polls[from]) == Continue {
      QuotaBoundsItems(c, polls, from + 1);
    }
  }

  /** Undisturbed, a workload with a quota produces exactly that many items. */
  lemma UndisturbedMeetsQuota(c: Config, polls: seq<Poll>)
    requires c.numToGen > 0 && |polls| > c.numToGen
    requires forall i :: 0 <= i < |polls| ==> !polls[i].cancelled && (c.timeToRun > 0 ==> !polls[i].fired)
    ensures StopIndex(c, polls, 0) == c.numToGen
    ensures Decide(c, c.numToGen, polls[c.numToGen]) == QuotaMet
  {
    QuotaBoundsItems(c, polls, 0);
    var n := StopIndex(c, polls, 0);
    assert Decide(c, n, polls[n]) != Continue;
  }

  /** The process exits only if asked to, and only because the quota was met or a timer fired. */
  lemma ExitNeedsCompletion(c: Config, polls: seq<Poll>)
    requires var n := StopIndex(c, polls, 0);
      n < |polls| && Decide(c, n, polls[n]) != Cancelled
    ensures var n := StopIndex(c, polls, 0);
      (c.numToGen > 0 && n == c.numToGen) || (c.timeToRun > 0 && polls[n].fired)
  {
    if c.numToGen > 0 {
      QuotaBoundsItems(c, polls, 0);
    }
  }
}
