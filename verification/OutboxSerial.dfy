/**
  The installed config follows the active devices when awaited engine calls do not overlap. The code
  does not enforce it (`process` is entered from several places, and the agent serves requests in
  parallel), so the hypothesis is spelled out on the run. Calls given up after a failure or a crash
  may still be carried out at any time.
*/
module OutboxSerial {
  import opened Common
  import opened OutboxModel
  import opened OutboxSafety
  import opened OutboxDrift

  /** A claim that is sent in this step finds no call awaited. */
  ghost predicate Alone(w: World, e: Event) {
    Sends(w, e) ==> w.flights == map[]
  }

  ghost predicate OneCallAtATime(w: World, events: seq<Event>)
    decreases |events|
  {
    events == [] || (Alone(w, events[0]) && OneCallAtATime(Next(w, events[0]), events[1..]))
  }

  /** Only the last claim's own call is awaited, and only it has been confirmed since. */
  ghost predicate OwnOnly(w: World, t: Trace) {
    if t.last.None? then w.flights == map[]
    else
      && (forall c :: c in w.flights ==> ChangeOf(w.flights[c]) == t.last.value.change)
      && (forall x :: x in t.done ==> x == t.last.value.change)
  }

  lemma ClaimStaysOwn(w: World, e: Event, t: Trace)
    requires OwnOnly(w, t) && e.Claim? && Alone(w, e)
    ensures OwnOnly(Next(w, e), After(w, e, t))
  {
    if Sends(w, e) {
      ClaimSends(w, e.job, e.force, e.call, e.renders, e.now);
    } else {
      ClaimIdles(w, e.job, e.force, e.call, e.renders, e.now);
    }
  }

  lemma OthersStayOwn(w: World, e: Event, t: Trace)
    requires OwnOnly(w, t) && !e.Claim?
    ensures OwnOnly(Next(w, e), After(w, e, t))
  {
  }

  lemma {:induction false} RunStaysOwn(w: World, events: seq<Event>, t: Trace)
    requires OwnOnly(w, t) && OneCallAtATime(w, events)
    ensures OwnOnly(Run(w, events), TraceOf(w, events, t))
    decreases |events|
  {
    if events != [] {
      if events[0].Claim? {
        ClaimStaysOwn(w, events[0], t);
      } else {
        OthersStayOwn(w, events[0], t);
      }
      RunStaysOwn(Next(w, events[0]), events[1..], After(w, events[0], t));
    }
  }

  /** What was sent has been confirmed once no job is open. */
  lemma SentIsDone(events: seq<Event>)
    requires NoOpenJob(Run(START, events).db)
    ensures var t := TraceOf(START, events, UNSENT); t.last.Some? ==> t.last.value.change in t.done
  {
    StartFollows();
    RunFollows(START, events, UNSENT);
  }

  lemma OwnNetsOut(t: Trace)
    requires t.last.Some? && t.last.value.change in t.done && forall x :: x in t.done ==> x == t.last.value.change
    ensures NetsOut(t)
  {
    LastOnSome(t.done, t.last.value.change.device);
  }

  /**
    With awaited engine calls never overlapping, under any failures, crashes and retries: whenever
    no sync job is open, the installed recovery config lets in exactly the active devices.
  */
  lemma InstalledIsActive(events: seq<Event>)
    requires OneCallAtATime(START, events) && NoOpenJob(Run(START, events).db)
    ensures Agrees(Run(START, events))
  {
    RunStaysOwn(START, events, UNSENT);
    SentIsDone(events);
    var t := TraceOf(START, events, UNSENT);
    if t.last.Some? { OwnNetsOut(t); }
    InstalledIsActiveIff(events);
  }
}
