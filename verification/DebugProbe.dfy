/** The debug probe: a countdown fault injector with a bounded history.

    The probe's mutex is held by a configuration write, by a probe request and by a report, each
    on its own (a PUT takes it twice), so a concurrent execution is a sequence of these critical
    sections. The ghost field `events` records that sequence, reports left out, and the class
    invariant ties the three real fields to it. */
module DebugProbe {
  import opened BoundedHistory
  import opened ProbeCountdown

  /** How a time is shown: as a date, or as how long ago. */
  type Rendering = Time -> string

  datatype Option<T> = None | Some(value: T)

  datatype ProbeConfig = ProbeConfig(failNext: int)
  datatype ProbeStatusHistory = ProbeStatusHistory(id: int, when: string, relWhen: string, code: int)
  datatype ProbeStatus = ProbeStatus(failNext: int, history: seq<ProbeStatusHistory>)
  datatype Message = Healthy | FailWithLeft(left: int) | FailPermanent
  datatype PutReply = BadRequest | Status(status: ProbeStatus)

  /** A reported entry: the number and status of the stored one, and its time in both renderings. */
  predicate Shows(r: ProbeStatusHistory, h: ProbeHistory, friendly: Rendering, relative: Rendering) {
    r.id == h.id && r.code == h.code && r.when == friendly(h.when) && r.relWhen == relative(h.when)
  }

  class Probe {
    var lastID: int
    var c: ProbeConfig
    var history: seq<ProbeHistory>
    ghost var events: seq<Event>

    ghost predicate Valid() reads this {
      && c.failNext == ExpectedFailNext(events)
      && lastID == |ExpectedLog(events)|
      && history == LastN(MAX_HISTORY, ExpectedLog(events))
    }

    constructor ()
      ensures Valid() && events == []
      ensures c.failNext == 0 && history == [] && lastID == 0
    {
      lastID, c, history := 0, ProbeConfig(0), [];
      events := [];
    }

    method SetConfig(config: ProbeConfig)
      requires Valid()
      modifies this
      ensures Valid() && events == old(events) + [Set(config.failNext)]
      ensures c == config && lastID == old(lastID) && history == old(history)
    {
      c := config;
      EventsSnoc(events, Set(config.failNext));
      events := events + [Set(config.failNext)];
    }

    method Handle(now: Time) returns (status: int, message: Message)
      requires Valid()
      modifies this
      ensures Valid() && events == old(events) + [Request(now)]
      ensures status == ExpectedCode(old(events))
      ensures status == if old(c.failNext) == 0 then 200 else 500
      ensures message.Healthy? <==> old(c.failNext) == 0
      ensures message.FailPermanent? <==> old(c.failNext) < 0
      ensures message.FailWithLeft? ==> message.left == c.failNext
      ensures c.failNext == if old(c.failNext) > 0 then old(c.failNext) - 1 else old(c.failNext)
      ensures lastID == old(lastID) + 1
      ensures history != [] && history[|history| - 1] == ProbeHistory(old(lastID) + 1, now, status)
    {
      status := STATUS_OK;
      message := Healthy;
      if c.failNext > 0 {
        status := STATUS_ERROR;
        c := c.(failNext := c.failNext - 1);
        message := FailWithLeft(c.failNext);
      } else if c.failNext < 0 {
        status := STATUS_ERROR;
        message := FailPermanent;
      }
      EventsSnoc(events, Request(now));
      RecordRequest(now, status);
    }

    method RecordRequest(now: Time, code: int)
      requires lastID == |ExpectedLog(events)|
      requires history == LastN(MAX_HISTORY, ExpectedLog(events))
      requires code == ExpectedCode(events)
      requires c.failNext == ExpectedFailNext(events + [Request(now)])
      modifies this`lastID, this`history, this`events
      ensures Valid() && events == old(events) + [Request(now)]
      ensures lastID == old(lastID) + 1
      ensures history == LastN(20, old(history) + [ProbeHistory(old(lastID) + 1, now, code)])
    {
      lastID := lastID + 1;
      var entry := ProbeHistory(lastID, now, code);
      WindowSnoc(events, now);
      history := history + [entry];
      if |history| > MAX_HISTORY {
        history := history[|history| - MAX_HISTORY..];
      }
      EventsSnoc(events, Request(now));
      events := events + [Request(now)];
    }

    /** The countdown in force, and exactly the stored history in reverse. */
    ghost predicate Reports(s: ProbeStatus, friendly: Rendering, relative: Rendering) reads this {
      && s.failNext == c.failNext == ExpectedFailNext(events)
      && |s.history| == |history|
      && forall i :: 0 <= i < |history| ==> Shows(s.history[i], history[|history| - 1 - i], friendly, relative)
    }

    /** Fills the reply by index, newest first. The two time renderings are opaque. */
    method LockedGet(friendly: Rendering, relative: Rendering) returns (s: ProbeStatus)
      requires Valid()
      ensures Reports(s, friendly, relative)
    {
      var l := |history|;
      var out := new ProbeStatusHistory[l];
      for i := 0 to l
        invariant forall k :: 0 <= k < i ==> Shows(out[l - 1 - k], history[k], friendly, relative)
      {
        var v := history[i];
        out[l - 1 - i] := ProbeStatusHistory(v.id, friendly(v.when), relative(v.when), v.code);
      }
      forall i | 0 <= i < l ensures Shows(out[i], history[l - 1 - i], friendly, relative) {
        assert Shows(out[l - 1 - (l - 1 - i)], history[l - 1 - i], friendly, relative);
      }
      s := ProbeStatus(c.failNext, out[..]);
    }

    /** The critical sections of other callers. */
    method Interleaved(others: seq<Event>)
      requires Valid()
      modifies this
      ensures Valid() && events == old(events) + others
    {
      for i := 0 to |others|
        invariant Valid() && events == old(events) + others[..i]
      {
        assert others[..i + 1] == others[..i] + [others[i]];
        match others[i] {
          case Set(failNext) => SetConfig(ProbeConfig(failNext));
          case Request(now) =>
            var status, message := Handle(now);
        }
      }
      assert others[..|others|] == others;
    }

    /** A body that does not decode changes nothing. Otherwise the countdown is set and, after
        whatever `others` do between the two critical sections, the probe is reported as it then
        is: with the new countdown and the history untouched, if they do nothing. */
    method APIPut(body: Option<ProbeConfig>, others: seq<Event>, friendly: Rendering, relative: Rendering)
      returns (reply: PutReply)
      requires Valid()
      modifies this
      ensures Valid()
      ensures body.None? ==> reply.BadRequest? && events == old(events)
      ensures body.Some? ==>
        && events == old(events) + [Set(body.value.failNext)] + others
        && reply.Status? && Reports(reply.status, friendly, relative)
      ensures body.Some? && others == [] ==>
        reply.status.failNext == body.value.failNext && history == old(history) && lastID == old(lastID)
    {
      if body.None? {
        return BadRequest;
      }
      EventsSnoc(events, Set(body.value.failNext));
      SetConfig(body.value);
      assert events + [] == events;
      Interleaved(others);
      var s := LockedGet(friendly, relative);
      reply := Status(s);
    }
  }
}
