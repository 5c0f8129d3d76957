/**
  What a device's polls make of it, without its aggregate: when an engine counts as online, what is
  taken for its last activity, and at which polls exactly each event is logged. And that the service,
  which updates all devices, gives each of them the history of its own polls.
*/
module PresenceFacts {
  import opened Common
  import opened Presence

  // ---------- when Hysteria is online ----------

  /** The replies of Hysteria, in order. */
  function Replies(polls: seq<Poll>): seq<Reply<int>> {
    if polls == [] then []
    else
      var before, last := Replies(polls[..|polls| - 1]), polls[|polls| - 1].hysteria;
      if last.NotPolled? then before else before + [last]
  }

  predicate Connected(r: Reply<int>) {
    r.Success? && r.value > 0
  }

  /** The last reply brought connections, or it was the first empty one right after one that did. */
  predicate JustConnected(rs: seq<Reply<int>>) {
    var n := |rs|;
    n > 0 && (Connected(rs[n - 1]) || (n > 1 && rs[n - 1].Success? && Connected(rs[n - 2])))
  }

  /** What is known of Hysteria's row from its replies. */
  predicate FollowsReplies(row: Option<Row>, rs: seq<Reply<int>>) {
    && (row.None? <==> rs == [])
    && (row.Some? ==>
          && (row.value.status == Online <==> JustConnected(rs))
          && (rs[|rs| - 1].Failure? ==> row.value.status == Unknown)
          && (Connected(rs[|rs| - 1]) <==> row.value.misses == 0 && row.value.status == Online)
          && (row.value.status == Online && row.value.misses > 0 ==> row.value.misses == 1))
  }

  lemma {:induction false} RowFollowsReplies(polls: seq<Poll>)
    ensures FollowsReplies(After(polls).h, Replies(polls))
  {
    if polls != [] {
      RowFollowsReplies(polls[..|polls| - 1]);
    }
  }

  /** Hysteria is online exactly when its last reply brought connections or was the first empty one right after one that did. */
  lemma HysteriaOnlineIff(polls: seq<Poll>)
    ensures Is(After(polls).h, Online) <==> JustConnected(Replies(polls))
  {
    RowFollowsReplies(polls);
  }

  /** The last poll that brought connections. */
  function LastConnection(polls: seq<Poll>): Option<Time> {
    if polls == [] then None
    else if Connected(polls[|polls| - 1].hysteria) then Some(polls[|polls| - 1].at)
    else LastConnection(polls[..|polls| - 1])
  }

  lemma {:induction false} HysteriaRemembersConnection(polls: seq<Poll>)
    ensures LastConnection(polls) == if After(polls).h.Some? then After(polls).h.value.lastActive else None
  {
    if polls != [] {
      HysteriaRemembersConnection(polls[..|polls| - 1]);
    }
  }

  // ---------- when Xray is unknown ----------

  /** The last reply of Xray, polls that did not ask it aside. */
  function LastXray(polls: seq<Poll>): Reply<bool> {
    if polls == [] then NotPolled
    else if polls[|polls| - 1].xray != NotPolled then polls[|polls| - 1].xray
    else LastXray(polls[..|polls| - 1])
  }

  /** Xray has a row once it was asked, and is unknown exactly when its last reply failed. */
  lemma {:induction false} XrayUnknownIff(polls: seq<Poll>)
    ensures After(polls).x.None? <==> LastXray(polls).NotPolled?
    ensures Is(After(polls).x, Unknown) <==> LastXray(polls).Failure?
  {
    if polls != [] {
      XrayUnknownIff(polls[..|polls| - 1]);
    }
  }

  // ---------- what the facts and the log say ----------

  /** An engine that counts as online has been active at some time. */
  lemma {:induction false} OnlineWasActive(polls: seq<Poll>)
    ensures var d := After(polls);
            && (OnlineNow(d.h) ==> d.h.value.lastActive.Some?) && (OnlineNow(d.x) ==> d.x.value.lastActive.Some?)
            && (d.facts.firstSeen.Some? <==> d.facts.lastSeen.Some?)
            && (d.facts.absentSince.Some? ==> d.facts.lastSeen.Some?)
  {
    if polls != [] {
      OnlineWasActive(polls[..|polls| - 1]);
    }
  }

  /** The events the last poll of a history has logged. */
  function Logged(polls: seq<Poll>): seq<Event>
    requires polls != []
  {
    var before, after := After(polls[..|polls| - 1]).log, After(polls).log;
    if |before| <= |after| then after[|before|..] else []
  }

  /** A poll that gets to the facts, with an engine online. */
  predicate Sees(polls: seq<Poll>) {
    polls != [] && polls[|polls| - 1].facts && (OnlineNow(After(polls).h) || OnlineNow(After(polls).x))
  }

  lemma PollIs(polls: seq<Poll>)
    requires polls != []
    ensures var before, after, p := After(polls[..|polls| - 1]), After(polls), polls[|polls| - 1];
            && after.log == before.log + Logged(polls)
            && (p.facts ==> after.facts == NewFacts(before.facts, after.h, after.x, p.at)
                            && Logged(polls) == NewEvents(before.facts, after.h, after.x, p.at))
            && (!p.facts ==> after.facts == before.facts && Logged(polls) == [])
  {
    var before, p := After(polls[..|polls| - 1]), polls[|polls| - 1];
    var events := if p.facts then NewEvents(before.facts, After(polls).h, After(polls).x, p.at) else [];
    assert After(polls).log == before.log + events;
  }

  /**
    What a poll does to facts and log. One that sees the device sets `lastSeen` to the latest activity of the
    engines online and ends an absence; the first such poll sets `firstSeen`, too. A long absence begins at a poll
    with every engine that ever answered offline, 24 hours or more after the device was last seen. Nothing
    else changes facts or log.
  */
  lemma PollSays(polls: seq<Poll>)
    requires polls != []
    ensures var before, after, p := After(polls[..|polls| - 1]), After(polls), polls[|polls| - 1];
            && after.log == before.log + Logged(polls)
            && if p.facts then Settle(before.facts, after.h, after.x, p.at, after.facts, Logged(polls))
               else after.facts == before.facts && Logged(polls) == []
  {
    OnlineWasActive(polls);
    PollIs(polls);
    FactsSettle(After(polls[..|polls| - 1]).facts, After(polls).h, After(polls).x, polls[|polls| - 1].at);
  }

  lemma {:induction false} SeenBefore(polls: seq<Poll>)
    ensures After(polls).facts.firstSeen.Some? <==> exists n :: 0 < n <= |polls| && Sees(polls[..n])
  {
    if polls == [] {
    } else {
      var before := polls[..|polls| - 1];
      SeenBefore(before);
      PollSays(polls);
      assert polls[..|polls|] == polls;
      forall n | 0 < n <= |before| ensures before[..n] == polls[..n] {}
      if After(polls).facts.firstSeen.Some? && !Sees(polls) {
        var n :| 0 < n <= |before| && Sees(before[..n]);
        assert Sees(polls[..n]);
      }
      if n :| 0 < n <= |polls| && Sees(polls[..n]) {
        if n < |polls| { assert Sees(before[..n]); }
      }
    }
  }

  /** "first seen" is logged exactly at the first poll that sees the device. */
  lemma FirstSeenIsFirst(polls: seq<Poll>)
    requires polls != []
    ensures (exists e :: e in Logged(polls) && e.FirstSeen?) <==> Sees(polls) && forall n :: 0 < n < |polls| ==> !Sees(polls[..n])
  {
    var before := polls[..|polls| - 1];
    PollSays(polls);
    SeenBefore(before);
    forall n | 0 < n < |polls| ensures before[..n] == polls[..n] {}
    if Sees(polls) && After(before).facts.firstSeen.None? { assert FirstSeen(polls[|polls| - 1].at) in Logged(polls); }
    if After(before).facts.firstSeen.Some? {
      var n :| 0 < n <= |before| && Sees(before[..n]);
      assert Sees(polls[..n]);
    }
  }

  /** "returned" is logged exactly at a poll that sees the device while its log ends in a long absence. */
  lemma ReturnedEndsAbsence(polls: seq<Poll>)
    requires polls != []
    ensures (exists e :: e in Logged(polls) && e.Returned?) <==> Sees(polls) && EndsAbsent(After(polls[..|polls| - 1]).log)
  {
    PollSays(polls);
    LogIsWellShaped(polls[..|polls| - 1]);
    if Sees(polls) && EndsAbsent(After(polls[..|polls| - 1]).log) { assert Returned(polls[|polls| - 1].at) in Logged(polls); }
  }

  // ---------- all devices together ----------

  /** What the service keeps, and what each device's log is. */
  datatype Panel = Panel(rows: map<(Id, Engine), Row>, devices: map<Id, DeviceRow>, logs: map<Id, seq<Event>>)

  datatype Step = Asked(round: Round) | Facts(at: Time)

  function ActiveOf(devices: map<Id, DeviceRow>): set<Id> {
    set d | d in devices && devices[d].active
  }

  function LogsOf(logs: map<Id, seq<Event>>, d: Id): seq<Event> {
    if d in logs then logs[d] else []
  }

  /** The step function the service's methods are proved equal to. */
  function Stepped(p: Panel, s: Step): Panel {
    match s
    case Asked(round) => p.(rows := Answered(p.rows, ActiveOf(p.devices), round))
    case Facts(at) => p.(
      devices := map d | d in p.devices ::
        if !p.devices[d].active then p.devices[d]
        else DeviceRow(true, NewFacts(p.devices[d].facts, Get(p.rows, d, Hysteria), Get(p.rows, d, Xray), at)),
      logs := map d | d in p.devices ::
        LogsOf(p.logs, d) + if !p.devices[d].active then []
                            else NewEvents(p.devices[d].facts, Get(p.rows, d, Hysteria), Get(p.rows, d, Xray), at))
  }

  function Steps(p: Panel, steps: seq<Step>): Panel {
    if steps == [] then p else Stepped(Steps(p, steps[..|steps| - 1]), steps[|steps| - 1])
  }

  /** What a step is to one device. A device that Hysteria does not mention has no connections. */
  function PollOf(s: Step, d: Id): Poll {
    match s
    case Asked(Connections(online, at)) => Poll(at, Success(if d in online then online[d] else 0), NotPolled, false)
    case Asked(Activity(active, at)) => Poll(at, NotPolled, Success(d in active), false)
    case Asked(Lost(engine)) => if engine == Hysteria then Poll(0, Failure, NotPolled, false) else Poll(0, NotPolled, Failure, false)
    case Facts(at) => Poll(at, NotPolled, NotPolled, true)
  }

  function PollsOf(steps: seq<Step>, d: Id): (polls: seq<Poll>)
    ensures |polls| == |steps|
  {
    if steps == [] then [] else PollsOf(steps[..|steps| - 1], d) + [PollOf(steps[|steps| - 1], d)]
  }

  /** A panel whose devices have not been seen yet. */
  predicate Unseen(p: Panel) {
    p.rows == map[] && p.logs == map[] && forall d :: d in p.devices ==> p.devices[d].facts == Presence.Facts(None, None, None)
  }

  ghost predicate Shows(p: Panel, d: Id, device: Device) {
    && d in p.devices && p.devices[d].active && p.devices[d].facts == device.facts
    && Get(p.rows, d, Hysteria) == device.h && Get(p.rows, d, Xray) == device.x && LogsOf(p.logs, d) == device.log
  }

  lemma StepShows(p: Panel, s: Step, d: Id, device: Device)
    requires Shows(p, d, device)
    ensures Shows(Stepped(p, s), d, Polled(device, PollOf(s, d)))
  {
    if s.Facts? {
      var after := Stepped(p, s);
      assert after.logs[d] == device.log + NewEvents(device.facts, device.h, device.x, s.at);
    }
  }

  /** Whatever the service does for all devices, each active one has the rows, the facts and the log of its own polls. */
  lemma {:induction false} EachHasItsPolls(p: Panel, steps: seq<Step>, d: Id)
    requires Unseen(p) && d in p.devices && p.devices[d].active
    ensures Shows(Steps(p, steps), d, After(PollsOf(steps, d)))
  {
    if steps != [] {
      var before, n := steps[..|steps| - 1], |steps| - 1;
      EachHasItsPolls(p, before, d);
      StepShows(Steps(p, before), steps[n], d, After(PollsOf(before, d)));
      assert PollsOf(steps, d)[..n] == PollsOf(before, d);
    }
  }

  /** A device that is not active keeps its facts, and nothing is logged for it. */
  lemma {:induction false} InactiveStays(p: Panel, steps: seq<Step>, d: Id)
    requires Unseen(p) && d in p.devices && !p.devices[d].active
    ensures var after := Steps(p, steps);
            d in after.devices && after.devices[d] == p.devices[d] && LogsOf(after.logs, d) == []
  {
    if steps != [] {
      InactiveStays(p, steps[..|steps| - 1], d);
    }
  }
}
