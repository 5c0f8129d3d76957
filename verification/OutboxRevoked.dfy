/**
  When revoked means revoked for ever. What a revocation takes away stays away in every
  interleaving; the status itself can change back in one way only, by an activation call that was
  already under way.
*/
module OutboxRevoked {
  import opened Common
  import opened OutboxModel
  import opened OutboxSafety
  import opened OutboxRuns

  predicate IsRevoked(w: World, d: Id) {
    d in w.db.devices && w.db.devices[d].status == Revoked
  }

  /** Nothing is left that could let the device in: no live credential, no session, no redeemable invitation. */
  ghost predicate Bare(db: Db, d: Id) {
    && (forall k :: k in db.credentials && k.0 == d ==> db.credentials[k].revoked)
    && (forall s :: s in db.sessions ==> db.sessions[s].device != d)
    && (forall i :: i in db.invitations && db.invitations[i].device == d ==> !Redeemable(db.invitations[i].status))
  }

  ghost predicate BareIfRevoked(w: World, d: Id) {
    IsRevoked(w, d) ==> Bare(w.db, d)
  }

  /** No activation of the device is under way: a guard that can be looked up before a revocation commits. */
  ghost predicate NoActivation(flights: Calls, d: Id) {
    forall c :: c in flights && flights[c].device == d ==> flights[c].kind == Revoke
  }

  // ---------- revoked devices are bare, in every interleaving ----------

  lemma RowsStayBare(w: World, e: Event, d: Id)
    requires BareIfRevoked(w, d) && (e.CreateDevice? || e.CreateInvitation? || e.InvitationCrash? || e.Prepare?)
    ensures BareIfRevoked(Next(w, e), d) && (IsRevoked(w, d) ==> IsRevoked(Next(w, e), d))
  {
  }

  lemma RevokeRowsBare(db: Db, d: Id, k: Id)
    requires d in db.devices && (d == k || Bare(db, k))
    ensures Bare(RevokeRows(db, d), k)
  {
  }

  lemma RequestStaysBare(w: World, d: Id, j: Id, now: Time, k: Id)
    requires BareIfRevoked(w, k)
    ensures var w' := w.(db := RequestRevokeRows(w.db, d, j, now));
            BareIfRevoked(w', k) && (IsRevoked(w, k) ==> IsRevoked(w', k))
  {
    if d in w.db.devices && (d == k || Bare(w.db, k)) { RevokeRowsBare(w.db, d, k); }
  }

  lemma CallsStayBare(w: World, e: Event, d: Id)
    requires BareIfRevoked(w, d) && !e.Succeeds?
    requires e.Claim? || e.AgentInstalls? || e.AgentEnds? || e.Fails? || e.Crash? || e.Recover?
    ensures BareIfRevoked(Next(w, e), d) && (IsRevoked(w, d) ==> IsRevoked(Next(w, e), d))
  {
  }

  lemma CommitStaysBare(db: Db, j: Id, now: Time, d: Id)
    requires j in db.jobs && (d in db.devices && db.devices[d].status == Revoked ==> Bare(db, d))
    ensures var after := CommitRows(db, j, now);
            after.Some? && d in after.value.devices && after.value.devices[d].status == Revoked ==> Bare(after.value, d)
  {
    var job := db.jobs[j];
    if job.device in db.devices && (job.device == d || Bare(db, d)) { RevokeRowsBare(db, job.device, d); }
  }

  lemma SucceedStaysBare(w: World, c: Id, now: Time, d: Id)
    requires BareIfRevoked(w, d)
    ensures BareIfRevoked(SucceedStep(w, c, now), d)
  {
    if c in w.flights && w.flights[c].job in w.db.jobs { CommitStaysBare(w.db, w.flights[c].job, now, d); }
  }

  lemma NextStaysBare(w: World, e: Event, d: Id)
    requires BareIfRevoked(w, d)
    ensures BareIfRevoked(Next(w, e), d)
  {
    if e.RequestRevoke? {
      RequestStaysBare(w, e.device, e.job, e.now, d);
    } else if e.Succeeds? {
      SucceedStaysBare(w, e.call, e.now, d);
    } else if e.CreateDevice? || e.CreateInvitation? || e.InvitationCrash? || e.Prepare? {
      RowsStayBare(w, e, d);
    } else {
      CallsStayBare(w, e, d);
    }
  }

  lemma {:induction false} RunStaysBare(w: World, events: seq<Event>, d: Id)
    requires BareIfRevoked(w, d)
    ensures BareIfRevoked(Run(w, events), d)
    decreases |events|
  {
    if events != [] {
      NextStaysBare(w, events[0], d);
      RunStaysBare(Next(w, events[0]), events[1..], d);
    }
  }

  lemma ReachableBare(events: seq<Event>, d: Id)
    ensures BareIfRevoked(Run(START, events), d)
  {
    RunStaysBare(START, events, d);
  }

  /** In every interleaving a revoked device has no subscription, no live credential, no session and no redeemable invitation. */
  lemma RevokedIsBare(events: seq<Event>, d: Id)
    requires IsRevoked(Run(START, events), d)
    ensures var db := Run(START, events).db;
            db.devices[d].subscription == None && !Live(db, d) && Bare(db, d)
  {
    ReachableBare(events, d);
    ReachableInv(events);
  }

  // ---------- revoked for ever ----------

  ghost predicate Barred(w: World, d: Id) {
    IsRevoked(w, d) && Bare(w.db, d) && NoActivation(w.flights, d)
  }

  lemma BarredClaim(w: World, j: Id, force: bool, c: Id, renders: bool, now: Time, d: Id)
    requires Barred(w, d)
    ensures Barred(ClaimStep(w, j, force, c, renders, now), d)
  {
  }

  lemma BarredSucceed(w: World, c: Id, now: Time, d: Id)
    requires Barred(w, d) && (c in w.flights ==> CallOk(w.db.jobs, w.flights[c]))
    ensures Barred(SucceedStep(w, c, now), d)
  {
    SucceedStaysBare(w, c, now, d);
  }

  lemma BarredNext(w: World, e: Event, d: Id)
    requires FlightsOk(w.db.jobs, w.flights) && Barred(w, d)
    ensures Barred(Next(w, e), d)
  {
    if e.RequestRevoke? {
      RequestStaysBare(w, e.device, e.job, e.now, d);
    } else if e.Claim? {
      BarredClaim(w, e.job, e.force, e.call, e.renders, e.now, d);
    } else if e.Succeeds? {
      BarredSucceed(w, e.call, e.now, d);
    } else if e.CreateDevice? || e.CreateInvitation? || e.InvitationCrash? || e.Prepare? {
      RowsStayBare(w, e, d);
    } else {
      CallsStayBare(w, e, d);
    }
  }

  lemma {:induction false} RunBarred(w: World, events: seq<Event>, d: Id)
    requires Inv(w) && Barred(w, d)
    ensures Barred(Run(w, events), d)
    decreases |events|
  {
    if events != [] {
      BarredNext(w, events[0], d);
      NextKeeps(w, events[0]);
      RunBarred(Next(w, events[0]), events[1..], d);
    }
  }

  /** A confirmed call leaves its device active or revoked, as its kind says. */
  lemma CommitSets(db: Db, j: Id, now: Time)
    requires j in db.jobs && CommitRows(db, j, now).Some?
    ensures var after, d := CommitRows(db, j, now).value, db.jobs[j].device;
            d in after.devices && after.devices[d].status == if db.jobs[j].kind == Activate then Active else Revoked
  {
  }

  lemma SucceedSets(w: World, c: Id, now: Time)
    requires Tables(w.db) && c in w.flights && CallOk(w.db.jobs, w.flights[c]) && w.flights[c].installed
    ensures var after, d := SucceedStep(w, c, now), w.flights[c].device;
            && d in after.db.devices && after.db.devices[d].status == (if w.flights[c].kind == Activate then Active else Revoked)
            && after.flights == w.flights - {c}
  {
    CommitKeeps(w.db, w.flights[c].job, now);
    CommitSets(w.db, w.flights[c].job, now);
  }

  lemma InstallReadies(w: World, c: Id)
    requires c in w.flights
    ensures var after := InstallStep(w, c);
            after.db == w.db && c in after.flights && after.flights[c] == w.flights[c].(installed := true)
  {
  }

  lemma InstallThenSucceed(w: World, c: Id, now: Time)
    ensures Run(w, [AgentInstalls(c)] + [Succeeds(c, now)]) == SucceedStep(InstallStep(w, c), c, now)
  {
    RunSplits(w, [AgentInstalls(c)], [Succeeds(c, now)]);
    RunOne(w, AgentInstalls(c));
    RunOne(InstallStep(w, c), Succeeds(c, now));
  }

  lemma InstalledRevives(w: World, installed: World, c: Id, now: Time)
    requires Tables(w.db) && c in w.flights && CallOk(w.db.jobs, w.flights[c]) && w.flights[c].kind == Activate
    requires installed.db == w.db && c in installed.flights && installed.flights[c] == w.flights[c].(installed := true)
    ensures !IsRevoked(SucceedStep(installed, c, now), w.flights[c].device)
  {
    SucceedSets(installed, c, now);
  }

  /** An activation call under way can still be carried out and confirmed, and then the device is active. */
  lemma ActivationRevives(w: World, c: Id, now: Time)
    requires Tables(w.db) && c in w.flights && CallOk(w.db.jobs, w.flights[c]) && w.flights[c].kind == Activate
    ensures !IsRevoked(Run(w, [AgentInstalls(c)] + [Succeeds(c, now)]), w.flights[c].device)
  {
    InstallThenSucceed(w, c, now);
    InstallReadies(w, c);
    InstalledRevives(w, InstallStep(w, c), c, now);
  }

  /** The device is revoked after every continuation. */
  ghost predicate ForEverRevoked(w: World, d: Id) {
    forall after: seq<Event> :: IsRevoked(Run(w, after), d)
  }

  lemma ForEverIff(w: World, d: Id)
    requires Inv(w) && IsRevoked(w, d) && Bare(w.db, d)
    ensures ForEverRevoked(w, d) <==> NoActivation(w.flights, d)
  {
    if NoActivation(w.flights, d) {
      forall after: seq<Event> ensures IsRevoked(Run(w, after), d) { RunBarred(w, after, d); }
    } else {
      var c :| c in w.flights && w.flights[c].device == d && w.flights[c].kind == Activate;
      assert CallOk(w.db.jobs, w.flights[c]);
      ActivationRevives(w, c, 0);
    }
  }

  /**
    In every reachable state a revoked device stays revoked, whatever comes, exactly when no
    activation call of the device is under way.
  */
  lemma RevokedIsForeverIff(events: seq<Event>, d: Id)
    requires IsRevoked(Run(START, events), d)
    ensures ForEverRevoked(Run(START, events), d) <==> NoActivation(Run(START, events).flights, d)
  {
    ReachableInv(events);
    ReachableBare(events, d);
    ForEverIff(Run(START, events), d);
  }

  lemma LeavesNoActivation(flights: Calls, c: Id, d: Id)
    requires c in flights && flights[c].kind == Revoke
    ensures NoActivation(flights - {c}, d) <==> NoActivation(flights, d)
  {
    var rest := flights - {c};
    assert forall k :: k in flights && k != c ==> k in rest && rest[k] == flights[k];
  }

  lemma AfterCommitIff(w: World, w': World, c: Id, d: Id)
    requires Inv(w') && IsRevoked(w', d) && BareIfRevoked(w', d)
    requires c in w.flights && w.flights[c].kind == Revoke && w'.flights == w.flights - {c}
    ensures ForEverRevoked(w', d) <==> NoActivation(w.flights, d)
  {
    LeavesNoActivation(w.flights, c, d);
    ForEverIff(w', d);
  }

  lemma CommitHoldsIff(w: World, c: Id, now: Time, d: Id)
    requires Inv(w) && BareIfRevoked(w, d)
    requires c in w.flights && w.flights[c].device == d && w.flights[c].kind == Revoke && w.flights[c].installed
    ensures IsRevoked(SucceedStep(w, c, now), d)
    ensures ForEverRevoked(SucceedStep(w, c, now), d) <==> NoActivation(w.flights, d)
  {
    assert CallOk(w.db.jobs, w.flights[c]);
    SucceedSets(w, c, now);
    SucceedKeeps(w, c, now);
    SucceedStaysBare(w, c, now, d);
    AfterCommitIff(w, SucceedStep(w, c, now), c, d);
  }

  /** The guard of a revocation that is about to commit: it is for ever exactly when no activation call of the device is under way. */
  lemma RevocationHoldsIff(events: seq<Event>, w: World, c: Id, now: Time, d: Id)
    requires w == Run(START, events)
    requires c in w.flights && w.flights[c].device == d && w.flights[c].kind == Revoke && w.flights[c].installed
    ensures IsRevoked(SucceedStep(w, c, now), d)
    ensures ForEverRevoked(SucceedStep(w, c, now), d) <==> NoActivation(w.flights, d)
  {
    ReachableInv(events);
    ReachableBare(events, d);
    CommitHoldsIff(w, c, now, d);
  }

  /** A device revoked before it was ever active is so for ever: the open activation that could revive it is refused for. */
  lemma UnprovisionedIsForever(events: seq<Event>, d: Id, j: Id, now: Time, after: seq<Event>)
    requires !IsRevoked(Run(START, events), d) && IsRevoked(Run(START, events + [RequestRevoke(d, j, now)]), d)
    ensures IsRevoked(Run(START, events + [RequestRevoke(d, j, now)] + after), d)
  {
    var w := Run(START, events);
    ReachableInv(events);
    RunSplits(START, events, [RequestRevoke(d, j, now)]);
    RunSplits(START, events + [RequestRevoke(d, j, now)], after);
    forall c | c in w.flights && w.flights[c].device == d ensures w.flights[c].kind == Revoke {
      assert CallOk(w.db.jobs, w.flights[c]);
    }
    RevokedIsForeverIff(events + [RequestRevoke(d, j, now)], d);
  }

  // ---------- when calls on one device do not overlap ----------

  /** A claim in this step finds no call in flight on its device. */
  ghost predicate DeviceFree(w: World, e: Event) {
    e.Claim? && Claims(w, e, e.job) ==> forall c :: c in w.flights ==> w.flights[c].device != w.db.jobs[e.job].device
  }

  ghost predicate OneCallPerDevice(w: World, events: seq<Event>)
    decreases |events|
  {
    events == [] || (DeviceFree(w, events[0]) && OneCallPerDevice(Next(w, events[0]), events[1..]))
  }

  ghost predicate Solo(flights: Calls) {
    forall c, k :: c in flights && k in flights && c != k ==> flights[c].device != flights[k].device
  }

  ghost predicate Quiet(w: World, d: Id) {
    Solo(w.flights) && BareIfRevoked(w, d) && (IsRevoked(w, d) ==> NoActivation(w.flights, d))
  }

  lemma ClaimStaysQuiet(w: World, e: Event, d: Id)
    requires Quiet(w, d) && e.Claim? && DeviceFree(w, e)
    ensures Quiet(Next(w, e), d)
  {
    CallsStayBare(w, e, d);
  }

  lemma RequestStaysQuiet(w: World, e: Event, d: Id)
    requires FlightsOk(w.db.jobs, w.flights) && Quiet(w, d) && e.RequestRevoke?
    ensures Quiet(Next(w, e), d)
  {
    RequestStaysBare(w, e.device, e.job, e.now, d);
    if IsRevoked(Next(w, e), d) && !IsRevoked(w, d) {
      forall c | c in w.flights && w.flights[c].device == d ensures w.flights[c].kind == Revoke {
        assert CallOk(w.db.jobs, w.flights[c]);
      }
    }
  }

  lemma SucceedStaysQuiet(w: World, c: Id, now: Time, d: Id)
    requires FlightsOk(w.db.jobs, w.flights) && Quiet(w, d)
    ensures Quiet(SucceedStep(w, c, now), d)
  {
    SucceedStaysBare(w, c, now, d);
    if c in w.flights { assert CallOk(w.db.jobs, w.flights[c]); }
  }

  lemma NextStaysQuiet(w: World, e: Event, d: Id)
    requires FlightsOk(w.db.jobs, w.flights) && Quiet(w, d) && DeviceFree(w, e)
    ensures Quiet(Next(w, e), d)
  {
    if e.RequestRevoke? {
      RequestStaysQuiet(w, e, d);
    } else if e.Claim? {
      ClaimStaysQuiet(w, e, d);
    } else if e.Succeeds? {
      SucceedStaysQuiet(w, e.call, e.now, d);
    } else if e.CreateDevice? || e.CreateInvitation? || e.InvitationCrash? || e.Prepare? {
      RowsStayBare(w, e, d);
    } else {
      CallsStayBare(w, e, d);
    }
  }

  lemma {:induction false} RunStaysQuiet(w: World, events: seq<Event>, d: Id)
    requires Inv(w) && Quiet(w, d) && OneCallPerDevice(w, events)
    ensures Quiet(Run(w, events), d)
    decreases |events|
  {
    if events != [] {
      NextStaysQuiet(w, events[0], d);
      NextKeeps(w, events[0]);
      RunStaysQuiet(Next(w, events[0]), events[1..], d);
    }
  }

  /** When calls on one device have not overlapped so far, whatever is revoked is so for ever, however calls overlap later. */
  lemma RevokedIsForever(before: seq<Event>, after: seq<Event>, d: Id)
    requires OneCallPerDevice(START, before) && IsRevoked(Run(START, before), d)
    ensures IsRevoked(Run(START, before + after), d)
  {
    RunSplits(START, before, after);
    RunStaysQuiet(START, before, d);
    RevokedIsForeverIff(before, d);
  }
}
