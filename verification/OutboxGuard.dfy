/**
  What a claim can know beforehand: whether the calls under way can do harm once it is sent. The
  future is any in which these calls and its own are confirmed, with no further claim, failure or
  crash; what else happens meanwhile is left open.
*/
module OutboxGuard {
  import opened Common
  import opened OutboxModel
  import opened OutboxSafety
  import opened OutboxRuns
  import opened OutboxDrift

  /** No further claim, no failure and no crash. */
  predicate Settling(e: Event) {
    !e.Claim? && !e.Fails? && !e.Crash?
  }

  predicate AllSettling(events: seq<Event>) {
    events == [] || (Settling(events[0]) && AllSettling(events[1..]))
  }

  /** A settling run at the end of which every call has been confirmed. */
  ghost predicate Settles(w: World, events: seq<Event>) {
    AllSettling(events) && Run(w, events).flights == map[]
  }

  /** Each call under way is on another device and changes nothing: it activates an active device, or revokes one that is not. */
  predicate Harmless(w: World, d: Id) {
    forall k :: k in w.flights ==>
      w.flights[k].device != d && (w.flights[k].kind == Activate <==> w.flights[k].device in ActiveDevices(w.db))
  }

  lemma Harmful(w: World, d: Id) returns (k: Id)
    requires !Harmless(w, d)
    ensures k in w.flights
    ensures w.flights[k].device != d ==> !(w.flights[k].kind == Activate <==> w.flights[k].device in ActiveDevices(w.db))
  {
    k :| k in w.flights && !(w.flights[k].device != d && (w.flights[k].kind == Activate <==> w.flights[k].device in ActiveDevices(w.db)));
  }

  /** However the calls under way settle, the installed config lets in exactly the active devices. */
  ghost predicate AlwaysAgrees(w: World) {
    forall events :: Settles(w, events) ==> Agrees(Run(w, events))
  }

  // ---------- how calls settle ----------

  /** Of the calls there were, some have been confirmed and the others are still under way. */
  ghost predicate Between(calls: Calls, flights: Calls, done: seq<Change>) {
    && (forall k :: k in flights ==> k in calls && ChangeOf(flights[k]) == ChangeOf(calls[k]))
    && (forall x :: x in done ==> exists k :: k in calls && ChangeOf(calls[k]) == x)
    && (forall k :: k in calls ==> k in flights || ChangeOf(calls[k]) in done)
  }

  ghost predicate Pending(w: World, calls: Calls, t: Trace) {
    && Between(calls, w.flights, t.done)
    && t.last.Some? && JobOf(w.db, t.last.value)
    && (Open(w.db.jobs[t.last.value.job]) ==>
          t.last.value.call in w.flights && w.flights[t.last.value.call].job == t.last.value.job)
  }

  lemma ConfirmedBetween(calls: Calls, flights: Calls, done: seq<Change>, c: Id)
    requires Between(calls, flights, done) && c in flights
    ensures Between(calls, flights - {c}, done + [ChangeOf(flights[c])])
  {
    var x, more := ChangeOf(flights[c]), done + [ChangeOf(flights[c])];
    assert forall y :: y in more <==> y in done || y == x;
    assert c in calls && ChangeOf(calls[c]) == x;
  }

  lemma ConfirmPends(w: World, c: Id, after: World, now: Time, calls: Calls, t: Trace)
    requires Pending(w, calls, t) && c in w.flights && w.flights[c].job in w.db.jobs
    requires after.flights == w.flights - {c}
    requires var j := w.flights[c].job; after.db.jobs == w.db.jobs[j := w.db.jobs[j].(status := Completed, nextAttempt := now)]
    ensures Pending(after, calls, t.(done := t.done + [ChangeOf(w.flights[c])]))
  {
    ConfirmedBetween(calls, w.flights, t.done, c);
  }

  lemma SucceedSettles(w: World, c: Id, now: Time, calls: Calls, t: Trace)
    requires Inv(w) && Pending(w, calls, t)
    ensures Pending(SucceedStep(w, c, now), calls, After(w, Succeeds(c, now), t))
  {
    if Confirms(w, Succeeds(c, now)) {
      assert CallOk(w.db.jobs, w.flights[c]);
      SucceedIs(w, c, now);
      ConfirmPends(w, c, SucceedStep(w, c, now), now, calls, t);
    } else {
      SucceedIdles(w, c, now);
    }
  }

  lemma OthersSettle(w: World, e: Event, calls: Calls, t: Trace)
    requires Pending(w, calls, t) && Settling(e) && !e.Succeeds?
    ensures Pending(Next(w, e), calls, t)
  {
  }

  lemma NextSettles(w: World, e: Event, calls: Calls, t: Trace)
    requires Inv(w) && Pending(w, calls, t) && Settling(e)
    ensures Pending(Next(w, e), calls, After(w, e, t)) && After(w, e, t).last == t.last
  {
    if e.Succeeds? {
      SucceedSettles(w, e.call, e.now, calls, t);
    } else {
      OthersSettle(w, e, calls, t);
    }
  }

  lemma {:induction false} RunSettles(w: World, events: seq<Event>, calls: Calls, t: Trace)
    requires Inv(w) && Pending(w, calls, t) && AllSettling(events)
    ensures Pending(Run(w, events), calls, TraceOf(w, events, t)) && TraceOf(w, events, t).last == t.last
    decreases |events|
  {
    if events != [] {
      NextSettles(w, events[0], calls, t);
      NextKeeps(w, events[0]);
      RunSettles(Next(w, events[0]), events[1..], calls, After(w, events[0], t));
    }
  }

  function Claimed(w: World, j: Id, force: bool, c: Id, now: Time): World {
    ClaimStep(w, j, force, c, true, now)
  }

  function Start(w: World, j: Id, c: Id): Trace
    requires j in w.db.jobs
  {
    Trace(Some(SentBy(w, j, c)), [])
  }

  lemma ClaimedIs(w: World, j: Id, force: bool, c: Id, now: Time)
    requires Sends(w, Claim(j, force, c, true, now))
    ensures j in w.db.jobs && c !in w.flights
    ensures Claimed(w, j, force, c, now).flights == w.flights[c := Call(j, w.db.jobs[j].device, w.db.jobs[j].kind, false)]
    ensures w.db.jobs.Keys <= Claimed(w, j, force, c, now).db.jobs.Keys
  {
    ClaimSends(w, j, force, c, true, now);
  }

  /** Where a claim that was sent starts from. */
  lemma ClaimStarts(w: World, j: Id, force: bool, c: Id, now: Time)
    requires Inv(w) && Sends(w, Claim(j, force, c, true, now))
    ensures j in w.db.jobs && Inv(Claimed(w, j, force, c, now))
    ensures Follows(Claimed(w, j, force, c, now), Start(w, j, c))
    ensures Pending(Claimed(w, j, force, c, now), Claimed(w, j, force, c, now).flights, Start(w, j, c))
  {
    ClaimedIs(w, j, force, c, now);
    assert JobOk(w.db.devices, w.db.invitations, w.db.jobs[j]);
    SentFollows(w, j, force, c, true, now);
    ClaimKeeps(w, j, force, c, true, now);
  }

  /** Once all is settled, the installed config is right exactly when the confirmations net out; they are those of the calls there were. */
  lemma SettledAgreesIff(w: World, j: Id, force: bool, c: Id, now: Time, events: seq<Event>)
    requires Inv(w) && Sends(w, Claim(j, force, c, true, now)) && Settles(Claimed(w, j, force, c, now), events)
    ensures j in w.db.jobs
    ensures var claimed := Claimed(w, j, force, c, now);
            var done := TraceOf(claimed, events, Start(w, j, c)).done;
            && Between(claimed.flights, map[], done)
            && (Agrees(Run(claimed, events)) <==> NetsOut(Trace(Some(SentBy(w, j, c)), done)))
  {
    ClaimStarts(w, j, force, c, now);
    var claimed, t := Claimed(w, j, force, c, now), Start(w, j, c);
    RunFollows(claimed, events, t);
    RunSettles(claimed, events, claimed.flights, t);
    NetsOutIff(SentBy(w, j, c), TraceOf(claimed, events, t).done);
  }

  // ---------- every order of confirmations can happen ----------

  lemma TraceStep(w: World, e: Event, rest: seq<Event>, t: Trace)
    ensures Run(w, [e] + rest) == Run(Next(w, e), rest)
    ensures TraceOf(w, [e] + rest, t) == TraceOf(Next(w, e), rest, After(w, e, t))
  {
    assert ([e] + rest)[0] == e && ([e] + rest)[1..] == rest;
  }

  lemma SettlingStep(e: Event, rest: seq<Event>)
    ensures AllSettling([e] + rest) <==> Settling(e) && AllSettling(rest)
  {
    assert ([e] + rest)[0] == e && ([e] + rest)[1..] == rest;
  }

  function Carried(w: World, c: Id): World {
    SucceedStep(InstallStep(w, c), c, 0)
  }

  function Adding(t: Trace, x: Change): Trace {
    t.(done := t.done + [x])
  }

  function Carry(c: Id, rest: seq<Event>): seq<Event> {
    [AgentInstalls(c)] + ([Succeeds(c, 0)] + rest)
  }

  predicate Known(w: World) {
    forall c :: c in w.flights ==> w.flights[c].job in w.db.jobs
  }

  lemma InstalledIs(w: World, c: Id)
    requires c in w.flights && w.flights[c].job in w.db.jobs
    ensures Confirms(InstallStep(w, c), Succeeds(c, 0)) && InstallStep(w, c).flights[c] == w.flights[c].(installed := true)
    ensures InstallStep(w, c).db == w.db && InstallStep(w, c).flights - {c} == w.flights - {c}
  {
  }

  lemma SucceedKnown(w: World, c: Id)
    requires Confirms(w, Succeeds(c, 0))
    ensures SucceedStep(w, c, 0).flights == w.flights - {c} && w.db.jobs.Keys <= SucceedStep(w, c, 0).db.jobs.Keys
  {
  }

  /** A call under way can be carried out and confirmed. */
  lemma CarriedIs(w: World, c: Id)
    requires Known(w) && c in w.flights
    ensures Known(Carried(w, c)) && Carried(w, c).flights == w.flights - {c}
  {
    InstalledIs(w, c);
    SucceedKnown(InstallStep(w, c), c);
    forall k | k in Carried(w, c).flights ensures Carried(w, c).flights[k].job in Carried(w, c).db.jobs {
      assert w.flights[k].job in w.db.jobs;
    }
  }

  lemma AfterCarry(w: World, c: Id, t: Trace)
    requires c in w.flights && w.flights[c].job in w.db.jobs
    ensures After(w, AgentInstalls(c), t) == t
    ensures After(InstallStep(w, c), Succeeds(c, 0), t) == Adding(t, ChangeOf(w.flights[c]))
  {
    InstalledIs(w, c);
  }

  lemma CarryStep(w: World, c: Id, rest: seq<Event>, t: Trace)
    requires c in w.flights && w.flights[c].job in w.db.jobs
    ensures Run(w, Carry(c, rest)) == Run(Carried(w, c), rest)
    ensures TraceOf(w, Carry(c, rest), t) == TraceOf(Carried(w, c), rest, Adding(t, ChangeOf(w.flights[c])))
  {
    AfterCarry(w, c, t);
    TraceStep(w, AgentInstalls(c), [Succeeds(c, 0)] + rest, t);
    TraceStep(InstallStep(w, c), Succeeds(c, 0), rest, t);
  }

  lemma CarrySettles(c: Id, rest: seq<Event>)
    requires AllSettling(rest)
    ensures AllSettling(Carry(c, rest))
  {
    SettlingStep(Succeeds(c, 0), rest);
    SettlingStep(AgentInstalls(c), [Succeeds(c, 0)] + rest);
  }

  /** All calls under way can be confirmed, the given one last. */
  lemma {:induction false} ConfirmAll(w: World, a: Id, t: Trace) returns (events: seq<Event>)
    requires Known(w) && a in w.flights
    ensures Settles(w, events)
    ensures var done := TraceOf(w, events, t).done; done != [] && done[|done| - 1] == ChangeOf(w.flights[a])
    decreases w.flights.Keys
  {
    if k :| k in w.flights && k != a {
      CarriedIs(w, k);
      var rest := ConfirmAll(Carried(w, k), a, Adding(t, ChangeOf(w.flights[k])));
      CarryStep(w, k, rest, t);
      CarrySettles(k, rest);
      events := Carry(k, rest);
    } else {
      CarriedIs(w, a);
      CarryStep(w, a, [], t);
      CarrySettles(a, []);
      events := Carry(a, []);
    }
  }

  // ---------- the guard ----------

  /** Calls that are harmless net out in whatever order they are confirmed. */
  lemma HarmlessNetsOut(w: World, j: Id, c: Id, calls: Calls, done: seq<Change>)
    requires j in w.db.jobs && c !in w.flights && Harmless(w, w.db.jobs[j].device)
    requires calls == w.flights[c := Call(j, w.db.jobs[j].device, w.db.jobs[j].kind, false)] && Between(calls, map[], done)
    ensures NetsOut(Trace(Some(SentBy(w, j, c)), done))
  {
    var s := SentBy(w, j, c);
    assert c in calls && ChangeOf(calls[c]) == s.change;
    LastOnSome(done, s.change.device);
    forall x | x in done && x.device != s.change.device
      ensures LastOn(done, x.device) == Some(Activate) <==> x.device in s.base
    {
      LastOnSome(done, x.device);
    }
  }

  /** A call that is not harmless breaks the agreement when it is confirmed last. */
  lemma HarmfulLast(s: Sent, done: seq<Change>, x: Change)
    requires done != [] && done[|done| - 1] == x
    requires if x.device == s.change.device then x.kind != s.change.kind else !(x.kind == Activate <==> x.device in s.base)
    ensures !NetsOut(Trace(Some(s), done))
  {
    assert LastOn(done, x.device) == Some(x.kind) && x in done;
  }

  /** The claim's own call and another on its device are of different kinds. */
  lemma OwnKindDiffers(w: World, j: Id, force: bool, c: Id, now: Time, k: Id)
    requires Inv(w) && Sends(w, Claim(j, force, c, true, now)) && k in w.flights
    ensures j in w.db.jobs && (w.flights[k].device == w.db.jobs[j].device ==> w.flights[k].kind != w.db.jobs[j].kind)
  {
    ClaimedIs(w, j, force, c, now);
    assert CallOk(w.db.jobs, w.flights[k]);
    assert w.flights[k].job != j;
    assert !Rivals(w.db.jobs[w.flights[k].job], w.db.jobs[j]);
  }

  lemma FlightsKnown(w: World, j: Id, force: bool, c: Id, now: Time)
    requires FlightsOk(w.db.jobs, w.flights) && Sends(w, Claim(j, force, c, true, now))
    ensures Known(Claimed(w, j, force, c, now))
  {
    ClaimedIs(w, j, force, c, now);
    forall k | k in w.flights ensures w.flights[k].job in w.db.jobs {
      assert CallOk(w.db.jobs, w.flights[k]);
    }
  }

  /** The order that does harm: the harmful call last. */
  lemma HarmfulOrder(claimed: World, s: Sent, k: Id) returns (events: seq<Event>)
    requires Known(claimed) && k in claimed.flights
    requires var x := ChangeOf(claimed.flights[k]);
             if x.device == s.change.device then x.kind != s.change.kind else !(x.kind == Activate <==> x.device in s.base)
    ensures Settles(claimed, events) && !NetsOut(Trace(Some(s), TraceOf(claimed, events, Trace(Some(s), [])).done))
  {
    events := ConfirmAll(claimed, k, Trace(Some(s), []));
    HarmfulLast(s, TraceOf(claimed, events, Trace(Some(s), [])).done, ChangeOf(claimed.flights[k]));
  }

  lemma HarmfulRun(w: World, j: Id, force: bool, c: Id, now: Time, k: Id) returns (events: seq<Event>)
    requires Inv(w) && Sends(w, Claim(j, force, c, true, now)) && j in w.db.jobs && k in w.flights
    requires w.flights[k].device != w.db.jobs[j].device ==> !(w.flights[k].kind == Activate <==> w.flights[k].device in ActiveDevices(w.db))
    ensures Settles(Claimed(w, j, force, c, now), events) && !Agrees(Run(Claimed(w, j, force, c, now), events))
  {
    FlightsKnown(w, j, force, c, now);
    ClaimedIs(w, j, force, c, now);
    OwnKindDiffers(w, j, force, c, now, k);
    events := HarmfulOrder(Claimed(w, j, force, c, now), SentBy(w, j, c), k);
    SettledAgreesIff(w, j, force, c, now, events);
  }

  /**
    The guard of a claim: however the calls settle that are under way once it is sent, the installed
    config lets in exactly the active devices, if and only if each call it finds under way is on
    another device and changes nothing.
  */
  lemma ClaimAgreesIff(w: World, j: Id, force: bool, c: Id, now: Time)
    requires Inv(w) && Sends(w, Claim(j, force, c, true, now))
    ensures j in w.db.jobs
    ensures AlwaysAgrees(Claimed(w, j, force, c, now)) <==> Harmless(w, w.db.jobs[j].device)
  {
    ClaimedIs(w, j, force, c, now);
    if Harmless(w, w.db.jobs[j].device) {
      forall events | Settles(Claimed(w, j, force, c, now), events) ensures Agrees(Run(Claimed(w, j, force, c, now), events)) {
        SettledAgreesIff(w, j, force, c, now, events);
        HarmlessNetsOut(w, j, c, Claimed(w, j, force, c, now).flights, TraceOf(Claimed(w, j, force, c, now), events, Start(w, j, c)).done);
      }
    } else {
      var k := Harmful(w, w.db.jobs[j].device);
      var events := HarmfulRun(w, j, force, c, now, k);
    }
  }

  // ---------- two calls ----------

  /** For two devices, `a` changes nothing; for one device, the claim's own call is confirmed last. */
  predicate TwoAgree(s: Sent, a: Change, done: seq<Change>)
    requires done != []
  {
    if a.device == s.change.device then done[|done| - 1] == s.change else a.kind == Activate <==> a.device in s.base
  }

  lemma TwoNetOut(s: Sent, a: Change, done: seq<Change>)
    requires a in done && s.change in done && (forall x :: x in done ==> x == a || x == s.change)
    requires a.device == s.change.device ==> a.kind != s.change.kind
    ensures NetsOut(Trace(Some(s), done))
        <==> TwoAgree(s, a, done)
  {
    LastOnSome(done, s.change.device);
    LastOnSome(done, a.device);
    assert done[|done| - 1] in done;
  }

  lemma BetweenTwo(calls: Calls, a: Id, c: Id, done: seq<Change>)
    requires calls.Keys == {a, c} && Between(calls, map[], done)
    ensures ChangeOf(calls[a]) in done && ChangeOf(calls[c]) in done
    ensures forall x :: x in done ==> x == ChangeOf(calls[a]) || x == ChangeOf(calls[c])
  {
  }

  /**
    A call is claimed while exactly one other, `a`, is under way, and both settle. Then the installed
    config lets in exactly the active devices if and only if: for two devices, `a` changes nothing;
    for one device, the call claimed is confirmed last.
  */
  lemma OverlapAgreesIff(w: World, j: Id, force: bool, c: Id, now: Time, a: Id, events: seq<Event>)
    requires Inv(w) && w.flights.Keys == {a} && Sends(w, Claim(j, force, c, true, now))
    requires Settles(Claimed(w, j, force, c, now), events)
    ensures j in w.db.jobs
    ensures var claimed := Claimed(w, j, force, c, now);
            var done := TraceOf(claimed, events, Start(w, j, c)).done;
            done != [] && (Agrees(Run(claimed, events)) <==> TwoAgree(SentBy(w, j, c), ChangeOf(w.flights[a]), done))
  {
    ClaimedIs(w, j, force, c, now);
    SettledAgreesIff(w, j, force, c, now, events);
    OwnKindDiffers(w, j, force, c, now, a);
    var done := TraceOf(Claimed(w, j, force, c, now), events, Start(w, j, c)).done;
    BetweenTwo(Claimed(w, j, force, c, now).flights, a, c, done);
    TwoNetOut(SentBy(w, j, c), ChangeOf(w.flights[a]), done);
  }
}
