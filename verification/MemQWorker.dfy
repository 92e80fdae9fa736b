/** A worker that draws its items from a queue: retry on errors, exit or wait when empty. */
module MemQWorker {
  import opened KeyGen

  datatype Result = Error | Empty | Message

  /** One turn of the loop: whether the context is cancelled at the check, and, if not, what
      Dequeue returns. */
  datatype Round = Round(cancelled: bool, result: Result)

  datatype End = StillRunning | ShutDown | ProcessExited(code: int)

  /** Whether this turn ends the loop. */
  predicate Ends(c: Config, r: Round) {
    r.cancelled || (r.result == Empty && c.exitOnComplete)
  }

  function LineOf(r: Result): Line {
    match r
    case Error => MemQError
    case Empty => MemQEmpty
    case Message => MemQItem
  }

  /** The first round that ends the loop, or |rounds|. */
  function StopIndex(c: Config, rounds: seq<Round>): (n: nat)
    ensures n <= |rounds|
    ensures forall i :: 0 <= i < n ==> !Ends(c, rounds[i])
    ensures n < |rounds| ==> Ends(c, rounds[n])
  {
    if rounds == [] || Ends(c, rounds[0]) then 0 else 1 + StopIndex(c, rounds[1..])
  }

  function Reports(rounds: seq<Round>): seq<Line> {
    seq(|rounds|, i requires 0 <= i < |rounds| => LineOf(rounds[i].result))
  }

  /** What is printed for each result, and which rounds the loop goes on after. */
  lemma {:induction false} WhatARunDid(c: Config, rounds: seq<Round>, n: nat)
    requires n == StopIndex(c, rounds)
    ensures |Reports(rounds)| == |rounds|
    ensures forall i :: 0 <= i < |rounds| ==> (Reports(rounds)[i] == MemQItem <==> rounds[i].result == Message)
    ensures forall i :: 0 <= i < |rounds| ==> (Reports(rounds)[i] == MemQError <==> rounds[i].result == Error)
    ensures forall i :: 0 <= i < |rounds| ==> (Reports(rounds)[i] == MemQEmpty <==> rounds[i].result == Empty)
    ensures forall i :: 0 <= i < n ==> !rounds[i].cancelled && !(c.exitOnComplete && rounds[i].result == Empty)
    ensures n < |rounds| ==> rounds[n].cancelled || (c.exitOnComplete && rounds[n].result == Empty)
  {
    forall i | 0 <= i < n ensures !rounds[i].cancelled && !(c.exitOnComplete && rounds[i].result == Empty) {
      assert !Ends(c, rounds[i]);
    }
  }

  lemma ReportsGrow(rounds: seq<Round>, i: nat)
    requires i < |rounds|
    ensures Reports(rounds[..i + 1]) == Reports(rounds[..i]) + [LineOf(rounds[i].result)]
  {
    assert rounds[..i + 1] == rounds[..i] + [rounds[i]];
  }

  lemma StopIndexSteps(c: Config, rounds: seq<Round>, i: nat)
    requires i < |rounds|
    ensures StopIndex(c, rounds[i..]) == if Ends(c, rounds[i]) then 0 else 1 + StopIndex(c, rounds[i + 1..])
  {
    assert rounds[i..][1..] == rounds[i + 1..];
  }

  class MemQWorker {
    const c: Config
    var out: seq<Line>

    constructor (c: Config)
      ensures this.c == c && out == []
    {
      this.c := c;
      out := [];
    }

    /** One line a round that does not end the loop, whatever Dequeue returned. */
    method StartWork(rounds: seq<Round>) returns (end: End)
      requires out == []
      modifies this
      ensures var n := StopIndex(c, rounds);
        && out == [MemQStarted] + Reports(rounds[..n]) + (if end.ShutDown? then [MemQShutdown] else [])
        && (end.StillRunning? <==> n == |rounds|)
        && (end.ShutDown? <==> n < |rounds| && rounds[n].cancelled)
        && (end.ProcessExited? ==> end.code == c.exitCode)
    {
      out := out + [MemQStarted];
      var i := 0;
      while i < |rounds|
        invariant 0 <= i <= |rounds|
        invariant out == [MemQStarted] + Reports(rounds[..i])
        invariant StopIndex(c, rounds) == i + StopIndex(c, rounds[i..])
      {
        ReportsGrow(rounds, i);
        StopIndexSteps(c, rounds, i);
        var done := IsDone(rounds[i]);
        if done {
          return ShutDown;
        }
        var m := rounds[i].result;
        i := i + 1;
        if m == Error {
          out := out + [MemQError];
          continue;
        }
        if m == Empty {
          if c.exitOnComplete {
            assert Ends(c, rounds[i - 1]);
            return ProcessExited(c.exitCode);
          }
          out := out + [MemQEmpty];
          continue;
        }
        ItemDone();
      }
      end := StillRunning;
    }

    method IsDone(r: Round) returns (done: bool)
      modifies this`out
      ensures done == r.cancelled
      ensures out == old(out) + (if done then [MemQShutdown] else [])
    {
      if r.cancelled {
        out := out + [MemQShutdown];
        return true;
      }
      done := false;
    }

    method ItemDone()
      modifies this`out
      ensures out == old(out) + [MemQItem]
    {
      out := out + [MemQItem];
    }
  }

  // ---------- Nothing lost, nothing made up ----------

  function Count(r: Result, rounds: seq<Round>): nat {
    if rounds == [] then 0 else Count(r, rounds[..|rounds| - 1]) + (if rounds[|rounds| - 1].result == r then 1 else 0)
  }

  function Items(lines: seq<Line>): nat {
    if lines == [] then 0 else Items(lines[..|lines| - 1]) + (if lines[|lines| - 1] == MemQItem then 1 else 0)
  }

  /** Exactly one item is reported for every message received; errors lose none. */
  lemma {:induction false} OneItemAMessage(rounds: seq<Round>)
    ensures Items(Reports(rounds)) == Count(Message, rounds)
  {
    if rounds != [] {
      OneItemAMessage(rounds[..|rounds| - 1]);
      assert Reports(rounds)[..|rounds| - 1] == Reports(rounds[..|rounds| - 1]);
    }
  }

  /** The results a queue of `n` messages can give while nobody else produces or consumes:
      a message while some are left, empty only afterwards, errors at any time. */
  ghost predicate FromQueue(n: nat, rounds: seq<Round>) {
    forall i :: 0 <= i < |rounds| ==>
      && (rounds[i].result == Message ==> Count(Message, rounds[..i]) < n)
      && (rounds[i].result == Empty ==> Count(Message, rounds[..i]) == n)
  }

  lemma {:induction false} CountsAddUp(rounds: seq<Round>)
    ensures Count(Message, rounds) + Count(Error, rounds) + Count(Empty, rounds) == |rounds|
  {
    if rounds != [] {
      CountsAddUp(rounds[..|rounds| - 1]);
    }
  }

  lemma {:induction false} NeverMoreThanQueued(n: nat, rounds: seq<Round>)
    requires FromQueue(n, rounds)
    ensures Count(Message, rounds) <= n
  {
    if rounds != [] {
      var front := rounds[..|rounds| - 1];
      forall i | 0 <= i < |front| ensures front[..i] == rounds[..i] {}
      NeverMoreThanQueued(n, front);
    }
  }

  lemma {:induction false} CountOfNone(r: Result, rounds: seq<Round>)
    requires forall i :: 0 <= i < |rounds| ==> rounds[i].result != r
    ensures Count(r, rounds) == 0
  {
    if rounds != [] {
      CountOfNone(r, rounds[..|rounds| - 1]);
    }
  }

  lemma {:induction false} CountOfPrefix(r: Result, rounds: seq<Round>, n: nat)
    requires n <= |rounds|
    ensures Count(r, rounds[..n]) <= Count(r, rounds)
  {
    if n < |rounds| {
      assert rounds[..|rounds| - 1][..n] == rounds[..n];
      CountOfPrefix(r, rounds[..|rounds| - 1], n);
    } else {
      assert rounds[..n] == rounds;
    }
  }

  /** With ExitOnComplete, a queue of `n` messages and no cancellation, a run longer than the
      messages and the errors together reports exactly `n` items and ends at an empty result. */
  lemma {:induction false} DrainsTheQueueAndExits(c: Config, n: nat, rounds: seq<Round>)
    requires c.exitOnComplete && FromQueue(n, rounds)
    requires forall i :: 0 <= i < |rounds| ==> !rounds[i].cancelled
    requires |rounds| > n + Count(Error, rounds)
    ensures var stop := StopIndex(c, rounds);
      && stop < |rounds| && rounds[stop].result == Empty
      && Items(Reports(rounds[..stop])) == n
  {
    var stop := StopIndex(c, rounds);
    var before := rounds[..stop];
    forall i | 0 <= i < stop ensures before[..i] == rounds[..i] && before[i].result != Empty {
      assert !Ends(c, rounds[i]);
    }
    CountsAddUp(before);
    CountOfNone(Empty, before);
    NeverMoreThanQueued(n, before);
    CountOfPrefix(Error, rounds, stop);
    OneItemAMessage(before);
  }
}
