/**
  Runs in which engine calls overlap. In the first an active device with a second invitation is
  being revoked; nothing stops the invitation from being redeemed meanwhile, and which call ends
  last decides what is left. In the second two devices are activated at the same time.
*/
module OutboxOverlap {
  import opened Common
  import opened OutboxModel
  import opened OutboxSafety
  import opened OutboxRevoked
  import opened OutboxRuns

  function At(device: Device, invitations: Invitations, sessions: Sessions, jobs: Jobs, users: (set<Id>, set<Id>), flights: Calls): World {
    World(Db(map[1 := device], map[(1, Hysteria) := Credential(false), (1, Xray) := Credential(false)], invitations, sessions, jobs),
          users.0, users.1, flights, map[])
  }

  const IN := Device(Invited, None)
  const ON := Device(Active, Some(1))
  const FIRST := Invitation(1, Redeemed, 100)
  const SECOND := Invitation(1, Pending, 100)
  const DONE := Job(1, Some(10), Activate, Completed, 1, 0)
  const LEAVE := Job(1, None, Revoke, Running, 1, 0)
  const REJOIN := Job(1, Some(11), Activate, Running, 1, 0)
  const OUT := Call(31, 1, Revoke, false)
  const BACK := Call(32, 1, Activate, false)
  const S1 := Session(10, 1, 10, 100)
  const S2 := Session(11, 1, 11, 100)
  const CLAIMING := SECOND.(status := Redeeming)
  const NEW_LEAVE := LEAVE.(status := Waiting, attempts := 0)
  const NEW_REJOIN := REJOIN.(status := Waiting, attempts := 0)

  const W1 := At(IN, map[], map[], map[], ({}, {}), map[])
  const W2 := At(IN, map[10 := SECOND], map[], map[], ({}, {}), map[])
  const W3 := At(IN, map[10 := CLAIMING],
    map[20 := S1], map[30 := DONE.(status := Waiting, attempts := 0)], ({}, {}), map[])
  const W4 := At(IN, map[10 := CLAIMING],
    map[20 := S1], map[30 := DONE.(status := Running)], ({1}, {}), map[40 := Call(30, 1, Activate, false)])
  const W5 := At(IN, map[10 := CLAIMING],
    map[20 := S1], map[30 := DONE.(status := Running)], ({1}, {1}), map[40 := Call(30, 1, Activate, true)])
  const W6 := At(ON, map[10 := FIRST], map[20 := S1], map[30 := DONE], ({1}, {1}), map[])
  const W7 := At(ON, map[10 := FIRST, 11 := SECOND], map[20 := S1], map[30 := DONE], ({1}, {1}), map[])
  const W8 := At(ON, map[10 := FIRST, 11 := SECOND], map[20 := S1], map[30 := DONE, 31 := NEW_LEAVE], ({1}, {1}), map[])
  const W9 := At(ON, map[10 := FIRST, 11 := SECOND],
    map[20 := S1], map[30 := DONE, 31 := LEAVE], ({}, {1}), map[41 := OUT])
  const W10 := At(ON, map[10 := FIRST, 11 := CLAIMING],
    map[20 := S1, 21 := S2], map[30 := DONE, 31 := LEAVE, 32 := NEW_REJOIN], ({}, {1}), map[41 := OUT])
  const W11 := At(ON, map[10 := FIRST, 11 := CLAIMING],
    map[20 := S1, 21 := S2], map[30 := DONE, 31 := LEAVE, 32 := REJOIN], ({1}, {1}), map[41 := OUT, 42 := BACK])
  const W12 := At(ON, map[10 := FIRST, 11 := CLAIMING],
    map[20 := S1, 21 := S2], map[30 := DONE, 31 := LEAVE, 32 := REJOIN], ({1}, {1}), map[41 := OUT.(installed := true), 42 := BACK])
  const W13 := At(ON, map[10 := FIRST, 11 := CLAIMING],
    map[20 := S1, 21 := S2], map[30 := DONE, 31 := LEAVE, 32 := REJOIN], ({1}, {1}), map[41 := OUT.(installed := true), 42 := BACK.(installed := true)])

  lemma Invites(events: seq<Event>) returns (more: seq<Event>)
    requires Run(START, events) == START
    ensures Run(START, more) == W2
  {
    more := Extend(events, START, CreateDevice(1), W1);
    more := Extend(more, W1, CreateInvitation(1, 10, 100), W2);
  }

  lemma Reserves(events: seq<Event>) returns (more: seq<Event>)
    requires Run(START, events) == W2
    ensures Run(START, more) == W3
  {
    more := Extend(events, W2, Prepare(10, 20, 30, 0, 100), W3);
  }

  lemma Calls(events: seq<Event>) returns (more: seq<Event>)
    requires Run(START, events) == W3
    ensures Run(START, more) == W4
  {
    more := Extend(events, W3, Claim(30, true, 40, true, 0), W4);
  }

  lemma InstallsFirst(events: seq<Event>) returns (more: seq<Event>)
    requires Run(START, events) == W4
    ensures Run(START, more) == W5
  {
    more := Extend(events, W4, AgentInstalls(40), W5);
  }

  lemma Activates(events: seq<Event>) returns (more: seq<Event>)
    requires Run(START, events) == W5
    ensures Run(START, more) == W6
  {
    more := Extend(events, W5, Succeeds(40, 0), W6);
  }

  lemma InvitesAgain(events: seq<Event>) returns (more: seq<Event>)
    requires Run(START, events) == W6
    ensures Run(START, more) == W7
  {
    more := Extend(events, W6, CreateInvitation(1, 11, 100), W7);
  }

  lemma AsksToLeave(events: seq<Event>) returns (more: seq<Event>)
    requires Run(START, events) == W7
    ensures Run(START, more) == W8
  {
    more := Extend(events, W7, RequestRevoke(1, 31, 0), W8);
  }

  lemma Leaves(events: seq<Event>) returns (more: seq<Event>)
    requires Run(START, events) == W8
    ensures Run(START, more) == W9
  {
    more := Extend(events, W8, Claim(31, true, 41, true, 0), W9);
  }

  lemma RedeemsAgain(events: seq<Event>) returns (more: seq<Event>)
    requires Run(START, events) == W9
    ensures Run(START, more) == W10
  {
    more := Extend(events, W9, Prepare(11, 21, 32, 0, 100), W10);
  }

  lemma CallsAgain(events: seq<Event>) returns (more: seq<Event>)
    requires Run(START, events) == W10
    ensures Run(START, more) == W11
  {
    assert W11.db == ClaimRows(W10.db, 32);
    ClaimsStep(W10, 32, 42, W11);
    more := Extend(events, W10, Claim(32, true, 42, true, 0), W11);
  }

  lemma Installs(events: seq<Event>) returns (more: seq<Event>)
    requires Run(START, events) == W11
    ensures Run(START, more) == W12
  {
    more := Extend(events, W11, AgentInstalls(41), W12);
  }

  lemma InstallsAgain(events: seq<Event>) returns (more: seq<Event>)
    requires Run(START, events) == W12
    ensures Run(START, more) == W13
  {
    more := Extend(events, W12, AgentInstalls(42), W13);
  }

  lemma LeavingRun() returns (events: seq<Event>)
    ensures Run(START, events) == W13
  {
    events := [];
    events := Invites(events);
    events := Reserves(events);
    events := Calls(events);
    events := InstallsFirst(events);
    events := Activates(events);
    events := InvitesAgain(events);
    events := AsksToLeave(events);
    events := Leaves(events);
    events := RedeemsAgain(events);
    events := CallsAgain(events);
    events := Installs(events);
    events := InstallsAgain(events);
  }

  lemma EndsWith(events: seq<Event>, w: World, c: Id, k: Id)
    requires Run(START, events) == w
    ensures Run(START, events + [Succeeds(c, 0)]) == SucceedStep(w, c, 0)
    ensures Run(START, events + [Succeeds(c, 0)] + [Succeeds(k, 0)]) == SucceedStep(SucceedStep(w, c, 0), k, 0)
  {
    RunSplits(START, events, [Succeeds(c, 0)]);
    RunSplits(START, events + [Succeeds(c, 0)], [Succeeds(k, 0)]);
  }

  predicate Revives(w: World) {
    var after := SucceedStep(SucceedStep(w, 41, 0), 42, 0);
    IsRevoked(SucceedStep(w, 41, 0), 1) && 1 in after.db.devices && after.db.devices[1].status == Active
  }

  ghost predicate LeavesInstalled(w: World) {
    var after := SucceedStep(SucceedStep(w, 42, 0), 41, 0);
    && (forall j :: j in after.db.jobs ==> !Open(after.db.jobs[j]))
    && ActiveDevices(after.db) == {} && after.installed == {1}
  }

  lemma RevocationFirst()
    ensures Revives(W13)
  {
  }

  const W14 := At(ON, map[10 := FIRST, 11 := FIRST],
    map[20 := S1, 21 := S2], map[30 := DONE, 31 := LEAVE, 32 := REJOIN.(status := Completed)], ({1}, {1}), map[41 := OUT.(installed := true)])

  lemma Activated()
    ensures SucceedStep(W13, 42, 0) == W14
  {
    var after := CommitRows(W13.db, 32, 0).value;
    assert after.devices == W14.db.devices;
    assert after.invitations == W14.db.invitations;
    assert after.jobs == W14.db.jobs;
    assert W13.flights - {42} == W14.flights;
  }

  lemma ActivationFirst()
    ensures LeavesInstalled(W13)
  {
    Activated();
  }

  lemma BothOrders() returns (events: seq<Event>, w: World)
    ensures Run(START, events) == w && Revives(w) && LeavesInstalled(w)
  {
    events := LeavingRun();
    w := W13;
    RevocationFirst();
    ActivationFirst();
  }

  /** If the revocation ends first, the device it revoked becomes active again. */
  lemma OverlapRevivesRevoked() returns (before: seq<Event>, after: Event)
    ensures IsRevoked(Run(START, before), 1)
    ensures var w := Run(START, before + [after]); 1 in w.db.devices && w.db.devices[1].status == Active
  {
    var events, w := BothOrders();
    before, after := events + [Succeeds(41, 0)], Succeeds(42, 0);
    EndsWith(events, w, 41, 42);
  }

  /** If the activation ends first, no job is left open and the installed config still lets the revoked device in. */
  lemma OverlapLeavesRevokedInstalled() returns (events: seq<Event>)
    ensures var w := Run(START, events);
            && (forall j :: j in w.db.jobs ==> !Open(w.db.jobs[j]))
            && ActiveDevices(w.db) == {} && w.installed == {1}
  {
    var leaving, w := BothOrders();
    events := leaving + [Succeeds(42, 0)] + [Succeeds(41, 0)];
    EndsWith(leaving, w, 42, 41);
  }

  // ---------- two devices, no revocation and no failure ----------

  const BOTH_LIVE := map[(1, Hysteria) := Credential(false), (1, Xray) := Credential(false),
                         (2, Hysteria) := Credential(false), (2, Xray) := Credential(false)]

  /** Two devices with their invitations of the given statuses; the users rendered and installed. */
  function Both(devices: Devices, first: InvitationStatus, second: InvitationStatus, sessions: Sessions, jobs: Jobs,
                users: (set<Id>, set<Id>), flights: Calls): World {
    World(Db(devices, BOTH_LIVE, map[10 := Invitation(1, first, 100), 11 := Invitation(2, second, 100)], sessions, jobs),
          users.0, users.1, flights, map[])
  }

  const NEW_TWO := map[1 := IN, 2 := IN]
  const ONE_ON := map[1 := ON, 2 := IN]
  const TWO_ON := map[1 := ON, 2 := Device(Active, Some(2))]
  const ONE_SESSION := map[20 := S1]
  const TWO_SESSIONS := map[20 := S1, 21 := Session(11, 2, 11, 100)]
  const WAIT1 := Job(1, Some(10), Activate, Waiting, 0, 0)
  const WAIT2 := Job(2, Some(11), Activate, Waiting, 0, 0)
  const RUN1 := Job(1, Some(10), Activate, Running, 1, 0)
  const RUN2 := Job(2, Some(11), Activate, Running, 1, 0)
  const DONE2 := Job(2, Some(11), Activate, Completed, 1, 0)
  const CALL1 := Call(30, 1, Activate, false)
  const CALL2 := Call(31, 2, Activate, false)

  const V1 := At(IN, map[], map[], map[], ({}, {}), map[])
  const V2 := World(Db(NEW_TWO, BOTH_LIVE, map[], map[], map[]), {}, {}, map[], map[])
  const V3 := World(Db(NEW_TWO, BOTH_LIVE, map[10 := SECOND], map[], map[]), {}, {}, map[], map[])
  const V4 := Both(NEW_TWO, Pending, Pending, map[], map[], ({}, {}), map[])
  const V5 := Both(NEW_TWO, Redeeming, Pending, ONE_SESSION, map[30 := WAIT1], ({}, {}), map[])
  const V6 := Both(NEW_TWO, Redeeming, Redeeming, TWO_SESSIONS, map[30 := WAIT1, 31 := WAIT2], ({}, {}), map[])
  const V7 := Both(NEW_TWO, Redeeming, Redeeming, TWO_SESSIONS, map[30 := RUN1, 31 := WAIT2], ({1}, {}), map[40 := CALL1])
  const V8 := Both(NEW_TWO, Redeeming, Redeeming, TWO_SESSIONS, map[30 := RUN1, 31 := RUN2], ({2}, {}), map[40 := CALL1, 41 := CALL2])
  const V9 := Both(NEW_TWO, Redeeming, Redeeming, TWO_SESSIONS, map[30 := RUN1, 31 := RUN2], ({2}, {2}),
    map[40 := CALL1.(installed := true), 41 := CALL2])
  const V10 := Both(NEW_TWO, Redeeming, Redeeming, TWO_SESSIONS, map[30 := RUN1, 31 := RUN2], ({2}, {2}),
    map[40 := CALL1.(installed := true), 41 := CALL2.(installed := true)])
  const V11 := Both(ONE_ON, Redeemed, Redeeming, TWO_SESSIONS, map[30 := DONE, 31 := RUN2], ({2}, {2}), map[41 := CALL2.(installed := true)])
  const V12 := Both(TWO_ON, Redeemed, Redeemed, TWO_SESSIONS, map[30 := DONE, 31 := DONE2], ({2}, {2}), map[])

  lemma Creates(events: seq<Event>) returns (more: seq<Event>)
    requires Run(START, events) == START
    ensures Run(START, more) == V1
  {
    more := Extend(events, START, CreateDevice(1), V1);
  }

  lemma CreatesBoth(events: seq<Event>) returns (more: seq<Event>)
    requires Run(START, events) == V1
    ensures Run(START, more) == V2
  {
    more := Extend(events, V1, CreateDevice(2), V2);
  }

  lemma InvitesOne(events: seq<Event>) returns (more: seq<Event>)
    requires Run(START, events) == V2
    ensures Run(START, more) == V3
  {
    more := Extend(events, V2, CreateInvitation(1, 10, 100), V3);
  }

  lemma InvitesBoth(events: seq<Event>) returns (more: seq<Event>)
    requires Run(START, events) == V3
    ensures Run(START, more) == V4
  {
    more := Extend(events, V3, CreateInvitation(2, 11, 100), V4);
  }

  lemma ReservesOne(events: seq<Event>) returns (more: seq<Event>)
    requires Run(START, events) == V4
    ensures Run(START, more) == V5
  {
    more := Extend(events, V4, Prepare(10, 20, 30, 0, 100), V5);
  }

  lemma ReservesBoth(events: seq<Event>) returns (more: seq<Event>)
    requires Run(START, events) == V5
    ensures Run(START, more) == V6
  {
    more := Extend(events, V5, Prepare(11, 21, 31, 0, 100), V6);
  }

  lemma ClaimsStep(w: World, j: Id, c: Id, w': World)
    requires Claimable(w.db, j, true, 0) && c !in w.flights && c !in w.orphans
    requires w'.db == ClaimRows(w.db, j) && CanCall(w'.db, w'.db.jobs[j].kind, w'.db.jobs[j].device)
    requires w' == World(w'.db, RecoverySet(w'.db, w'.db.jobs[j].kind, w'.db.jobs[j].device), w.installed,
                         w.flights[c := Call(j, w'.db.jobs[j].device, w'.db.jobs[j].kind, false)], w.orphans)
    ensures Next(w, Claim(j, true, c, true, 0)) == w'
  {
  }

  lemma NoneActive(db: Db, d: Id)
    requires ActiveDevices(db) == {} && d in db.devices
    ensures RecoverySet(db, Activate, d) == {d}
  {
  }

  lemma CallsOne(events: seq<Event>) returns (more: seq<Event>)
    requires Run(START, events) == V6
    ensures Run(START, more) == V7
  {
    NoneActive(V7.db, 1);
    ClaimsStep(V6, 30, 40, V7);
    more := Extend(events, V6, Claim(30, true, 40, true, 0), V7);
  }

  lemma CallsBoth(events: seq<Event>) returns (more: seq<Event>)
    requires Run(START, events) == V7
    ensures Run(START, more) == V8
  {
    NoneActive(V8.db, 2);
    ClaimsStep(V7, 31, 41, V8);
    more := Extend(events, V7, Claim(31, true, 41, true, 0), V8);
  }

  lemma InstallsOne(events: seq<Event>) returns (more: seq<Event>)
    requires Run(START, events) == V8
    ensures Run(START, more) == V9
  {
    more := Extend(events, V8, AgentInstalls(40), V9);
  }

  lemma InstallsBoth(events: seq<Event>) returns (more: seq<Event>)
    requires Run(START, events) == V9
    ensures Run(START, more) == V10
  {
    more := Extend(events, V9, AgentInstalls(41), V10);
  }

  lemma CommitsOne()
    ensures CommitRows(V10.db, 30, 0) == Some(V11.db)
  {
    var after := CommitRows(V10.db, 30, 0).value;
    assert after.devices == V11.db.devices;
    assert after.invitations == V11.db.invitations;
    assert after.jobs == V11.db.jobs;
  }

  lemma CommitsTwo()
    ensures CommitRows(V11.db, 31, 0) == Some(V12.db)
  {
    var after := CommitRows(V11.db, 31, 0).value;
    assert after.devices == V12.db.devices;
    assert after.invitations == V12.db.invitations;
    assert after.jobs == V12.db.jobs;
  }

  lemma CommitsStep(w: World, c: Id, w': World)
    requires c in w.flights && w.flights[c].installed && w.flights[c].job in w.db.jobs
    requires CommitRows(w.db, w.flights[c].job, 0) == Some(w'.db)
    requires w' == World(w'.db, w.rendered, w.installed, w.flights - {c}, w.orphans)
    ensures Next(w, Succeeds(c, 0)) == w'
  {
  }

  lemma ConfirmsOne(events: seq<Event>) returns (more: seq<Event>)
    requires Run(START, events) == V10
    ensures Run(START, more) == V11
  {
    CommitsOne();
    assert V10.flights - {40} == V11.flights;
    CommitsStep(V10, 40, V11);
    more := Extend(events, V10, Succeeds(40, 0), V11);
  }

  lemma ConfirmsBoth(events: seq<Event>) returns (more: seq<Event>)
    requires Run(START, events) == V11
    ensures Run(START, more) == V12
  {
    CommitsTwo();
    assert V11.flights - {41} == V12.flights;
    CommitsStep(V11, 41, V12);
    more := Extend(events, V11, Succeeds(41, 0), V12);
  }

  lemma ActivatingRun() returns (events: seq<Event>)
    ensures Run(START, events) == V12
  {
    events := [];
    events := Creates(events);
    events := CreatesBoth(events);
    events := InvitesOne(events);
    events := InvitesBoth(events);
    events := ReservesOne(events);
    events := ReservesBoth(events);
    events := CallsOne(events);
    events := CallsBoth(events);
    events := InstallsOne(events);
    events := InstallsBoth(events);
    events := ConfirmsOne(events);
    events := ConfirmsBoth(events);
  }

  lemma OneLeftOut()
    ensures ActiveDevices(V12.db) == {1, 2} && V12.installed == {2}
    ensures forall j :: j in V12.db.jobs ==> !Open(V12.db.jobs[j])
  {
  }

  /** Two devices are activated at the same time: both end active, no job is open, and the installed config lets in one. */
  lemma OverlapLeavesActiveOut() returns (events: seq<Event>)
    ensures var w := Run(START, events);
            && (forall j :: j in w.db.jobs ==> !Open(w.db.jobs[j]))
            && ActiveDevices(w.db) == {1, 2} && w.installed == {2}
  {
    events := ActivatingRun();
    OneLeftOut();
  }
}
