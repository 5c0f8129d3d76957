/**
  What holds in every interleaving of the outbox steps, with failures, crashes, retries and
  overlapping engine calls: one invariant over the five tables, kept by every step.
*/
module OutboxSafety {
  import opened Common
  import opened OutboxModel

  // ---------- the invariant, table by table ----------

  type Devices = map<Id, Device>
  type Invitations = map<Id, Invitation>
  type Sessions = map<Id, Session>
  type Jobs = map<Id, Job>
  type Calls = map<Id, Call>

  /**
    An activation job serves an invitation of its device, redeemed exactly when the job is
    completed; a revocation job is for a device that has left `Invited`.
  */
  predicate JobOk(devices: Devices, invitations: Invitations, job: Job) {
    && job.device in devices
    && match job.kind
       case Activate =>
         && job.invitation.Some? && job.invitation.value in invitations
         && invitations[job.invitation.value].device == job.device
         && var status := invitations[job.invitation.value].status;
            if Open(job) then status.Redeeming? || status.Withdrawn? else status.Redeemed?
       case Revoke => job.invitation.None? && devices[job.device].status != Invited
  }

  ghost predicate JobsOk(devices: Devices, invitations: Invitations, jobs: Jobs) {
    forall j :: j in jobs ==> JobOk(devices, invitations, jobs[j])
  }

  predicate Rivals(a: Job, b: Job) {
    Open(a) && Open(b) && a.device == b.device && a.kind == b.kind
  }

  predicate SameActivation(a: Job, b: Job) {
    a.kind == Activate && b.kind == Activate && a.invitation == b.invitation
  }

  /** At most one open job per device and kind, and at most one activation job per invitation. */
  ghost predicate JobsDistinct(jobs: Jobs) {
    forall j, k :: j in jobs && k in jobs && j != k ==> !Rivals(jobs[j], jobs[k]) && !SameActivation(jobs[j], jobs[k])
  }

  /** A session carries the token derived from its invitation, which is being or has been redeemed. */
  predicate SessionOk(invitations: Invitations, session: Session) {
    && session.token == session.invitation
    && session.invitation in invitations
    && invitations[session.invitation].device == session.device
    && (invitations[session.invitation].status.Redeeming? || invitations[session.invitation].status.Redeemed?)
  }

  ghost predicate SessionsOk(invitations: Invitations, sessions: Sessions) {
    && (forall s :: s in sessions ==> SessionOk(invitations, sessions[s]))
    && (forall s, t :: s in sessions && t in sessions && s != t ==> sessions[s].token != sessions[t].token)
  }

  predicate BothPending(a: Invitation, b: Invitation) {
    a.status == Pending && b.status == Pending && a.device == b.device
  }

  ghost predicate InvitationsOk(devices: Devices, invitations: Invitations) {
    && (forall i :: i in invitations ==> invitations[i].device in devices)
    && (forall i, k :: i in invitations && k in invitations && i != k ==> !BothPending(invitations[i], invitations[k]))
  }

  predicate Serves(job: Job, i: Id) {
    job.kind == Activate && job.invitation == Some(i)
  }

  ghost predicate HasSession(sessions: Sessions, i: Id) {
    exists s :: s in sessions && sessions[s].invitation == i
  }

  ghost predicate HasOpenActivation(jobs: Jobs, i: Id) {
    exists j :: j in jobs && Serves(jobs[j], i) && Open(jobs[j])
  }

  ghost predicate RedeemingServed(invitations: Invitations, sessions: Sessions, jobs: Jobs) {
    forall i :: i in invitations && invitations[i].status == Redeeming ==> HasSession(sessions, i) && HasOpenActivation(jobs, i)
  }

  ghost predicate Earned(jobs: Jobs, d: Id) {
    exists j :: j in jobs && jobs[j].device == d && jobs[j].kind == Activate && jobs[j].status == Completed
  }

  /** A device is active only after a completed activation, and exactly the active devices have a subscription: their own. */
  ghost predicate DevicesOk(devices: Devices, jobs: Jobs) {
    forall d :: d in devices ==>
      && devices[d].subscription == (if devices[d].status == Active then Some(d) else None)
      && (devices[d].status == Active ==> Earned(jobs, d))
  }

  ghost predicate Tables(db: Db) {
    && JobsOk(db.devices, db.invitations, db.jobs)
    && JobsDistinct(db.jobs)
    && SessionsOk(db.invitations, db.sessions)
    && InvitationsOk(db.devices, db.invitations)
    && RedeemingServed(db.invitations, db.sessions, db.jobs)
    && DevicesOk(db.devices, db.jobs)
  }

  predicate CallOk(jobs: Jobs, call: Call) {
    && call.job in jobs && jobs[call.job].status == Running
    && jobs[call.job].kind == call.kind && jobs[call.job].device == call.device
  }

  /** Every call in flight belongs to a running job, and no two belong to the same one. */
  ghost predicate FlightsOk(jobs: Jobs, flights: Calls) {
    && (forall c :: c in flights ==> CallOk(jobs, flights[c]))
    && (forall c, k :: c in flights && k in flights && c != k ==> flights[c].job != flights[k].job)
  }

  ghost predicate Inv(w: World) {
    Tables(w.db) && FlightsOk(w.db.jobs, w.flights)
  }

  // ---------- what a step may change without harm ----------

  /** How an invitation may move while no activation commits. */
  predicate Moves(a: Invitation, b: Invitation) {
    && a.device == b.device
    && (a.status.Pending? || b.status == a.status || (a.status.Redeeming? && b.status.Withdrawn?))
  }

  ghost predicate AllMove(a: Invitations, b: Invitations) {
    forall i :: i in a ==> i in b && Moves(a[i], b[i])
  }

  ghost predicate DevicesGrow(a: Devices, b: Devices) {
    forall d :: d in a ==> d in b && (a[d].status != Invited ==> b[d].status != Invited)
  }

  predicate Retried(a: Job, b: Job) {
    b == a || (Open(a) && Open(b) && b == a.(status := b.status, attempts := b.attempts, nextAttempt := b.nextAttempt))
  }

  /** Jobs that are claimed, failed or recovered keep everything but their progress. */
  ghost predicate JobsRetried(a: Jobs, b: Jobs) {
    a.Keys == b.Keys && forall j :: j in a ==> Retried(a[j], b[j])
  }

  lemma JobsOkStays(devices: Devices, invitations: Invitations, devices': Devices, invitations': Invitations, jobs: Jobs)
    requires JobsOk(devices, invitations, jobs)
    requires DevicesGrow(devices, devices') && AllMove(invitations, invitations')
    ensures JobsOk(devices', invitations', jobs)
  {
  }

  lemma RedeemingServedStays(invitations: Invitations, sessions: Sessions, jobs: Jobs, invitations': Invitations, sessions': Sessions, jobs': Jobs)
    requires RedeemingServed(invitations, sessions, jobs)
    requires forall i :: i in invitations' && invitations'[i].status == Redeeming ==> i in invitations && invitations[i].status == Redeeming
    requires SessionsKeepServing(invitations', sessions, sessions')
    requires JobsKeepServing(invitations', jobs, jobs')
    ensures RedeemingServed(invitations', sessions', jobs')
  {
  }

  predicate Served(invitations: Invitations, i: Id) {
    i in invitations && invitations[i].status == Redeeming
  }

  /** The sessions and the open activations of invitations that are still redeeming stay. */
  ghost predicate SessionsKeepServing(invitations: Invitations, a: Sessions, b: Sessions) {
    forall s | s in a && Served(invitations, a[s].invitation) :: s in b && b[s] == a[s]
  }

  ghost predicate JobsKeepServing(invitations: Invitations, a: Jobs, b: Jobs) {
    forall j | j in a && Open(a[j]) && a[j].kind == Activate && a[j].invitation.Some? && Served(invitations, a[j].invitation.value) ::
      j in b && Open(b[j]) && b[j].kind == a[j].kind && b[j].invitation == a[j].invitation
  }

  ghost predicate CompletedStay(a: Jobs, b: Jobs) {
    forall j :: j in a && a[j].status == Completed ==> j in b && b[j] == a[j]
  }

  lemma DevicesOkStays(devices: Devices, jobs: Jobs, devices': Devices, jobs': Jobs)
    requires DevicesOk(devices, jobs) && CompletedStay(jobs, jobs')
    requires forall d :: d in devices' ==> (d in devices && devices'[d] == devices[d]) || (devices'[d].status != Active && devices'[d].subscription == None)
    ensures DevicesOk(devices', jobs')
  {
  }

  lemma RetryKeepsServed(invitations: Invitations, sessions: Sessions, jobs: Jobs, jobs': Jobs)
    requires RedeemingServed(invitations, sessions, jobs) && JobsRetried(jobs, jobs')
    ensures RedeemingServed(invitations, sessions, jobs')
  {
  }

  lemma RetryKeepsDistinct(jobs: Jobs, jobs': Jobs)
    requires JobsDistinct(jobs) && JobsRetried(jobs, jobs')
    ensures JobsDistinct(jobs')
  {
  }

  lemma RetryKeepsLinks(devices: Devices, invitations: Invitations, jobs: Jobs, jobs': Jobs)
    requires JobsOk(devices, invitations, jobs) && JobsRetried(jobs, jobs')
    ensures JobsOk(devices, invitations, jobs') && CompletedStay(jobs, jobs')
  {
  }

  lemma RetryKeeps(db: Db, jobs': Jobs)
    requires Tables(db) && JobsRetried(db.jobs, jobs')
    ensures Tables(db.(jobs := jobs'))
  {
    RetryKeepsLinks(db.devices, db.invitations, db.jobs, jobs');
    RetryKeepsDistinct(db.jobs, jobs');
    RetryKeepsServed(db.invitations, db.sessions, db.jobs, jobs');
    DevicesOkStays(db.devices, db.jobs, db.devices, jobs');
  }

  // ---------- writing one job row ----------

  lemma PutJobKeepsDistinct(jobs: Jobs, j: Id, job: Job)
    requires JobsDistinct(jobs)
    requires forall k :: k in jobs && k != j ==> !Rivals(jobs[k], job) && !SameActivation(jobs[k], job)
    ensures JobsDistinct(jobs[j := job])
  {
  }

  lemma PutJobKeepsLinks(devices: Devices, invitations: Invitations, jobs: Jobs, j: Id, job: Job)
    requires forall k :: k in jobs && k != j ==> JobOk(devices, invitations, jobs[k])
    requires JobOk(devices, invitations, job)
    ensures JobsOk(devices, invitations, jobs[j := job])
  {
  }

  lemma PutJobKeepsServed(invitations: Invitations, sessions: Sessions, jobs: Jobs, j: Id, job: Job)
    requires RedeemingServed(invitations, sessions, jobs)
    requires j in jobs && jobs[j].kind == Activate && jobs[j].invitation.Some? ==> !Served(invitations, jobs[j].invitation.value)
    ensures RedeemingServed(invitations, sessions, jobs[j := job])
  {
    RedeemingServedStays(invitations, sessions, jobs, invitations, sessions, jobs[j := job]);
  }

  lemma PutJobKeepsDevices(devices: Devices, jobs: Jobs, j: Id, job: Job)
    requires DevicesOk(devices, jobs)
    requires j in jobs ==> Open(jobs[j])
    ensures DevicesOk(devices, jobs[j := job])
  {
    DevicesOkStays(devices, jobs, devices, jobs[j := job]);
  }

  // ---------- every step keeps the tables ----------

  lemma CreateDeviceKeeps(db: Db, d: Id)
    requires Tables(db) && d !in db.devices
    ensures Tables(db.(devices := db.devices[d := Device(Invited, None)]))
  {
  }

  /** The invitations being redeemed are the same ones before and after. */
  ghost predicate SameRedeeming(a: Invitations, b: Invitations) {
    && (forall i :: i in b && b[i].status == Redeeming ==> i in a && a[i].status == Redeeming)
    && (forall i :: i in a && a[i].status == Redeeming ==> i in b && b[i].status == Redeeming)
  }

  lemma MoveKeepsSessions(invitations: Invitations, invitations': Invitations, sessions: Sessions)
    requires SessionsOk(invitations, sessions) && AllMove(invitations, invitations') && SameRedeeming(invitations, invitations')
    ensures SessionsOk(invitations', sessions)
  {
  }

  lemma MoveKeepsServed(invitations: Invitations, invitations': Invitations, sessions: Sessions, jobs: Jobs)
    requires RedeemingServed(invitations, sessions, jobs) && SameRedeeming(invitations, invitations')
    ensures RedeemingServed(invitations', sessions, jobs)
  {
  }

  lemma InvitationsMoveKeeps(db: Db, invitations': Invitations)
    requires Tables(db) && AllMove(db.invitations, invitations') && InvitationsOk(db.devices, invitations')
    requires SameRedeeming(db.invitations, invitations')
    ensures Tables(db.(invitations := invitations'))
  {
    JobsOkStays(db.devices, db.invitations, db.devices, invitations', db.jobs);
    MoveKeepsSessions(db.invitations, invitations', db.sessions);
    MoveKeepsServed(db.invitations, invitations', db.sessions, db.jobs);
  }

  lemma SupersedeMoves(db: Db, d: Id)
    requires InvitationsOk(db.devices, db.invitations)
    ensures var i' := Supersede(db, d).invitations;
            AllMove(db.invitations, i') && SameRedeeming(db.invitations, i') && InvitationsOk(db.devices, i')
  {
  }

  lemma SupersedeKeeps(db: Db, d: Id)
    requires Tables(db)
    ensures Tables(Supersede(db, d))
  {
    SupersedeMoves(db, d);
    InvitationsMoveKeeps(db, Supersede(db, d).invitations);
  }

  lemma CreateInvitationKeeps(db: Db, d: Id, i: Id, expires: Time)
    requires Tables(db) && d in db.devices && i !in db.invitations
    requires forall k :: k in db.invitations && db.invitations[k].status == Pending ==> db.invitations[k].device != d
    ensures Tables(db.(invitations := db.invitations[i := Invitation(d, Pending, expires)]))
  {
    InvitationsMoveKeeps(db, db.invitations[i := Invitation(d, Pending, expires)]);
  }

  /** The device has no open activation, so its invitation cannot be redeeming: it is pending, with no session and no job. */
  lemma PrepareFindsFresh(db: Db, i: Id)
    requires Tables(db) && i in db.invitations && Redeemable(db.invitations[i].status)
    requires !HasOpen(db, db.invitations[i].device, Activate)
    ensures db.invitations[i].status == Pending && !TokenTaken(db, i)
    ensures forall j :: j in db.jobs ==> !Serves(db.jobs[j], i)
  {
  }

  function Reserved(invitations: Invitations, i: Id): Invitations
    requires i in invitations
  {
    invitations[i := invitations[i].(status := Redeeming)]
  }

  lemma ReserveMoves(devices: Devices, invitations: Invitations, i: Id)
    requires InvitationsOk(devices, invitations) && i in invitations && invitations[i].status == Pending
    ensures AllMove(invitations, Reserved(invitations, i)) && InvitationsOk(devices, Reserved(invitations, i))
  {
  }

  lemma PrepareKeepsServed(invitations: Invitations, sessions: Sessions, jobs: Jobs, i: Id, s: Id, j: Id, session: Session, job: Job)
    requires RedeemingServed(invitations, sessions, jobs)
    requires i in invitations && s !in sessions && j !in jobs
    requires session.invitation == i && Serves(job, i) && Open(job)
    ensures RedeemingServed(Reserved(invitations, i), sessions[s := session], jobs[j := job])
  {
    var before := map k | k in invitations && k != i :: invitations[k];
    RedeemingServedStays(before, sessions, jobs, before, sessions[s := session], jobs[j := job]);
    assert sessions[s := session][s].invitation == i && Serves(jobs[j := job][j], i);
  }

  lemma PrepareKeepsSessions(invitations: Invitations, sessions: Sessions, i: Id, s: Id, session: Session)
    requires SessionsOk(invitations, sessions) && i in invitations && invitations[i].status == Pending
    requires s !in sessions && session.token == session.invitation == i && session.device == invitations[i].device
    requires forall k :: k in sessions ==> sessions[k].token != i
    ensures SessionsOk(Reserved(invitations, i), sessions[s := session])
  {
  }

  lemma PrepareKeepsJobs(db: Db, i: Id, j: Id, job: Job)
    requires JobsOk(db.devices, db.invitations, db.jobs) && JobsDistinct(db.jobs) && InvitationsOk(db.devices, db.invitations)
    requires i in db.invitations && db.invitations[i].status == Pending && j !in db.jobs
    requires !HasOpen(db, db.invitations[i].device, Activate)
    requires forall j :: j in db.jobs ==> !Serves(db.jobs[j], i)
    requires job.device == db.invitations[i].device && Serves(job, i) && Open(job)
    ensures JobsOk(db.devices, Reserved(db.invitations, i), db.jobs[j := job]) && JobsDistinct(db.jobs[j := job])
  {
  }

  lemma PrepareKeeps(db: Db, i: Id, s: Id, j: Id, now: Time, expires: Time)
    requires Tables(db)
    ensures Tables(PrepareRows(db, i, s, j, now, expires))
  {
    if PrepareRows(db, i, s, j, now, expires) != db {
      PrepareFindsFresh(db, i);
      var device := db.invitations[i].device;
      var session, job := Session(i, device, i, expires), Job(device, Some(i), Activate, Waiting, 0, now);
      ReserveMoves(db.devices, db.invitations, i);
      PrepareKeepsJobs(db, i, j, job);
      PrepareKeepsServed(db.invitations, db.sessions, db.jobs, i, s, j, session, job);
      PrepareKeepsSessions(db.invitations, db.sessions, i, s, session);
      PutJobKeepsDevices(db.devices, db.jobs, j, job);
    }
  }

  lemma RevokeRowsKeepsServed(db: Db, d: Id)
    requires RedeemingServed(db.invitations, db.sessions, db.jobs) && SessionsOk(db.invitations, db.sessions) && d in db.devices
    ensures var t := RevokeRows(db, d); RedeemingServed(t.invitations, t.sessions, t.jobs)
  {
    var t := RevokeRows(db, d);
    assert SessionsKeepServing(t.invitations, db.sessions, t.sessions) by {
      assert forall s :: s in db.sessions ==> SessionOk(db.invitations, db.sessions[s]);
    }
    RedeemingServedStays(db.invitations, db.sessions, db.jobs, t.invitations, t.sessions, t.jobs);
  }

  lemma RevokeRowsKeepsSessions(db: Db, d: Id)
    requires SessionsOk(db.invitations, db.sessions) && InvitationsOk(db.devices, db.invitations) && d in db.devices
    ensures var t := RevokeRows(db, d); SessionsOk(t.invitations, t.sessions) && InvitationsOk(t.devices, t.invitations) && AllMove(db.invitations, t.invitations)
  {
  }

  lemma RevokeRowsKeeps(db: Db, d: Id)
    requires Tables(db) && d in db.devices
    ensures Tables(RevokeRows(db, d))
  {
    var t := RevokeRows(db, d);
    RevokeRowsKeepsServed(db, d);
    RevokeRowsKeepsSessions(db, d);
    JobsOkStays(db.devices, db.invitations, t.devices, t.invitations, db.jobs);
    DevicesOkStays(db.devices, db.jobs, t.devices, t.jobs);
  }

  lemma InsertRevocationKeeps(db: Db, d: Id, j: Id, now: Time)
    requires Tables(db) && d in db.devices && db.devices[d].status != Invited && !HasOpen(db, d, Revoke) && j !in db.jobs
    ensures Tables(db.(jobs := db.jobs[j := Job(d, None, Revoke, Waiting, 0, now)]))
  {
    var job := Job(d, None, Revoke, Waiting, 0, now);
    PutJobKeepsDistinct(db.jobs, j, job);
    PutJobKeepsLinks(db.devices, db.invitations, db.jobs, j, job);
    PutJobKeepsServed(db.invitations, db.sessions, db.jobs, j, job);
    PutJobKeepsDevices(db.devices, db.jobs, j, job);
  }

  lemma RequestRevokeKeeps(db: Db, d: Id, j: Id, now: Time)
    requires Tables(db)
    ensures Tables(RequestRevokeRows(db, d, j, now))
  {
    if d in db.devices && db.devices[d].status == Invited {
      RevokeRowsKeeps(db, d);
    } else if d in db.devices && !HasOpen(db, d, Revoke) && j !in db.jobs {
      InsertRevocationKeeps(db, d, j, now);
    }
  }

  lemma CompleteRevocationKeeps(db: Db, j: Id, job: Job)
    requires Tables(db) && j in db.jobs && db.jobs[j].kind == Revoke && Open(db.jobs[j])
    requires job.status == Completed && job == db.jobs[j].(status := Completed, nextAttempt := job.nextAttempt)
    ensures Tables(db.(jobs := db.jobs[j := job]))
  {
    assert JobOk(db.devices, db.invitations, db.jobs[j]);
    PutJobKeepsDistinct(db.jobs, j, job);
    PutJobKeepsLinks(db.devices, db.invitations, db.jobs, j, job);
    PutJobKeepsServed(db.invitations, db.sessions, db.jobs, j, job);
    PutJobKeepsDevices(db.devices, db.jobs, j, job);
  }

  function Spent(invitations: Invitations, i: Id): Invitations
    requires i in invitations
  {
    invitations[i := invitations[i].(status := Redeemed)]
  }

  lemma SpendKeepsSessions(devices: Devices, invitations: Invitations, sessions: Sessions, i: Id)
    requires SessionsOk(invitations, sessions) && InvitationsOk(devices, invitations) && i in invitations
    ensures SessionsOk(Spent(invitations, i), sessions) && InvitationsOk(devices, Spent(invitations, i))
  {
  }

  lemma SpendKeepsServed(invitations: Invitations, sessions: Sessions, jobs: Jobs, i: Id, j: Id, job: Job)
    requires RedeemingServed(invitations, sessions, jobs) && i in invitations && j in jobs && Serves(jobs[j], i)
    ensures RedeemingServed(Spent(invitations, i), sessions, jobs[j := job])
  {
    RedeemingServedStays(invitations, sessions, jobs, Spent(invitations, i), sessions, jobs[j := job]);
  }

  lemma SpendKeepsLinks(devices: Devices, devices': Devices, invitations: Invitations, jobs: Jobs, i: Id, j: Id, job: Job)
    requires JobsOk(devices, invitations, jobs) && JobsDistinct(jobs) && DevicesGrow(devices, devices')
    requires j in jobs && Serves(jobs[j], i) && i in invitations
    requires job.status == Completed && job == jobs[j].(status := Completed, nextAttempt := job.nextAttempt)
    ensures JobsOk(devices', Spent(invitations, i), jobs[j := job])
  {
  }

  lemma ActivateKeepsDevices(devices: Devices, jobs: Jobs, d: Id, j: Id, job: Job)
    requires DevicesOk(devices, jobs) && j in jobs && Open(jobs[j])
    requires job.device == d && job.kind == Activate && job.status == Completed
    ensures DevicesOk(devices[d := Device(Active, Some(d))], jobs[j := job])
  {
    PutJobKeepsDevices(devices, jobs, j, job);
    assert jobs[j := job][j] == job;
    assert Earned(jobs[j := job], d);
  }

  lemma CompleteActivationKeeps(db: Db, i: Id, j: Id, job: Job)
    requires Tables(db) && j in db.jobs && Open(db.jobs[j]) && Serves(db.jobs[j], i) && i in db.invitations
    requires job.status == Completed && job == db.jobs[j].(status := Completed, nextAttempt := job.nextAttempt)
    ensures Tables(db.(devices := db.devices[job.device := Device(Active, Some(job.device))],
                       invitations := Spent(db.invitations, i), jobs := db.jobs[j := job]))
  {
    assert JobOk(db.devices, db.invitations, db.jobs[j]);
    var devices' := db.devices[job.device := Device(Active, Some(job.device))];
    SpendKeepsLinks(db.devices, devices', db.invitations, db.jobs, i, j, job);
    SpendKeepsSessions(db.devices, db.invitations, db.sessions, i);
    SpendKeepsServed(db.invitations, db.sessions, db.jobs, i, j, job);
    ActivateKeepsDevices(db.devices, db.jobs, job.device, j, job);
    PutJobKeepsDistinct(db.jobs, j, job);
  }

  lemma CommitKeeps(db: Db, j: Id, now: Time)
    requires Tables(db) && j in db.jobs && Open(db.jobs[j])
    ensures CommitRows(db, j, now).Some? && Tables(CommitRows(db, j, now).value)
  {
    var job := db.jobs[j];
    var done := job.(status := Completed, nextAttempt := now);
    assert JobOk(db.devices, db.invitations, job);
    if job.kind == Revoke {
      RevokeRowsKeeps(db, job.device);
      CompleteRevocationKeeps(RevokeRows(db, job.device), j, done);
    } else {
      CompleteActivationKeeps(db, job.invitation.value, j, done);
    }
  }

  // ---------- the step function keeps the invariant ----------

  /** Claiming an idle job, and the flight that may come with it. */
  lemma StartFlight(jobs: Jobs, jobs': Jobs, flights: Calls, c: Id, call: Call)
    requires FlightsOk(jobs, flights)
    requires call.job in jobs && jobs[call.job].status != Running && CallOk(jobs', call)
    requires forall j :: j in jobs && j != call.job ==> j in jobs' && jobs'[j] == jobs[j]
    ensures c !in flights ==> FlightsOk(jobs', flights[c := call])
  {
  }

  lemma IdleJobChanges(jobs: Jobs, jobs': Jobs, flights: Calls, j: Id)
    requires FlightsOk(jobs, flights) && j in jobs && jobs[j].status != Running
    requires forall k :: k in jobs && k != j ==> k in jobs' && jobs'[k] == jobs[k]
    ensures FlightsOk(jobs', flights)
  {
  }

  lemma ClaimRetries(db: Db, j: Id, now: Time)
    requires j in db.jobs && (db.jobs[j].status.Waiting? || db.jobs[j].status.Failed?)
    ensures JobsRetried(db.jobs, ClaimRows(db, j).jobs)
    ensures JobsRetried(db.jobs, FailRows(ClaimRows(db, j), j, now).jobs)
  {
  }

  lemma RefusedClaimKeeps(w: World, j: Id, now: Time)
    requires Inv(w) && j in w.db.jobs && (w.db.jobs[j].status.Waiting? || w.db.jobs[j].status.Failed?)
    ensures Inv(w.(db := FailRows(ClaimRows(w.db, j), j, now)))
  {
    ClaimRetries(w.db, j, now);
    var jobs' := FailRows(ClaimRows(w.db, j), j, now).jobs;
    RetryKeeps(w.db, jobs');
    IdleJobChanges(w.db.jobs, jobs', w.flights, j);
  }

  lemma SentClaimKeeps(w: World, j: Id, c: Id, call: Call, users: set<Id>)
    requires Inv(w) && j in w.db.jobs && (w.db.jobs[j].status.Waiting? || w.db.jobs[j].status.Failed?)
    requires c !in w.flights && call == Call(j, w.db.jobs[j].device, w.db.jobs[j].kind, false)
    ensures Inv(w.(db := ClaimRows(w.db, j), rendered := users, flights := w.flights[c := call]))
  {
    ClaimRetries(w.db, j, 0);
    var jobs' := ClaimRows(w.db, j).jobs;
    RetryKeeps(w.db, jobs');
    StartFlight(w.db.jobs, jobs', w.flights, c, call);
  }

  lemma ClaimKeeps(w: World, j: Id, force: bool, c: Id, renders: bool, now: Time)
    requires Inv(w)
    ensures Inv(ClaimStep(w, j, force, c, renders, now))
  {
    if Claimable(w.db, j, force, now) && c !in w.flights && c !in w.orphans {
      var db, job := ClaimRows(w.db, j), w.db.jobs[j];
      if CanCall(db, job.kind, job.device) && renders {
        SentClaimKeeps(w, j, c, Call(j, job.device, job.kind, false), RecoverySet(db, job.kind, job.device));
      } else {
        RefusedClaimKeeps(w, j, now);
      }
    }
  }

  lemma InstallKeeps(w: World, c: Id)
    requires Inv(w)
    ensures Inv(InstallStep(w, c))
  {
  }

  lemma CommitChangesJob(db: Db, j: Id, now: Time)
    requires j in db.jobs && CommitRows(db, j, now).Some?
    ensures forall k :: k in db.jobs && k != j ==> k in CommitRows(db, j, now).value.jobs && CommitRows(db, j, now).value.jobs[k] == db.jobs[k]
  {
  }

  lemma SucceedKeeps(w: World, c: Id, now: Time)
    requires Inv(w)
    ensures Inv(SucceedStep(w, c, now))
  {
    if c in w.flights && w.flights[c].installed {
      assert CallOk(w.db.jobs, w.flights[c]);
      var j := w.flights[c].job;
      CommitKeeps(w.db, j, now);
      CommitChangesJob(w.db, j, now);
      EndFlight(w.db.jobs, CommitRows(w.db, j, now).value.jobs, w.flights, c);
    }
  }

  /** A flight may leave together with any change to its own job. */
  lemma EndFlight(jobs: Jobs, jobs': Jobs, flights: Calls, c: Id)
    requires FlightsOk(jobs, flights) && c in flights
    requires forall j :: j in jobs && j != flights[c].job ==> j in jobs' && jobs'[j] == jobs[j]
    ensures FlightsOk(jobs', flights - {c})
  {
  }

  lemma FailKeeps(w: World, c: Id, now: Time)
    requires Inv(w)
    ensures Inv(FailStep(w, c, now))
  {
    if c in w.flights {
      assert CallOk(w.db.jobs, w.flights[c]);
      var jobs' := FailRows(w.db, w.flights[c].job, now).jobs;
      RetryKeeps(w.db, jobs');
      EndFlight(w.db.jobs, jobs', w.flights, c);
    }
  }

  lemma MoreJobsKeepFlights(jobs: Jobs, jobs': Jobs, flights: Calls)
    requires FlightsOk(jobs, flights)
    requires forall j :: j in jobs ==> j in jobs' && jobs'[j] == jobs[j]
    ensures FlightsOk(jobs', flights)
  {
  }

  lemma RequestsKeepFlights(w: World, e: Event)
    requires FlightsOk(w.db.jobs, w.flights) && (e.Prepare? || e.RequestRevoke?)
    ensures FlightsOk(Next(w, e).db.jobs, w.flights)
  {
    MoreJobsKeepFlights(w.db.jobs, Next(w, e).db.jobs, w.flights);
  }

  lemma InvitingKeeps(w: World, e: Event)
    requires Inv(w) && (e.CreateDevice? || e.CreateInvitation? || e.InvitationCrash?)
    ensures Inv(Next(w, e))
  {
    if e.CreateDevice? {
      if e.device !in w.db.devices { CreateDeviceKeeps(w.db, e.device); }
    } else if e.InvitationCrash? {
      SupersedeKeeps(w.db, e.device);
    } else if e.device in w.db.devices && e.invitation !in w.db.invitations {
      SupersedeKeeps(w.db, e.device);
      CreateInvitationKeeps(Supersede(w.db, e.device), e.device, e.invitation, e.expires);
    }
  }

  lemma RequestsKeep(w: World, e: Event)
    requires Inv(w) && (e.Prepare? || e.RequestRevoke?)
    ensures Inv(Next(w, e))
  {
    RequestsKeepFlights(w, e);
    if e.Prepare? {
      PrepareKeeps(w.db, e.invitation, e.session, e.job, e.now, e.expires);
    } else {
      RequestRevokeKeeps(w.db, e.device, e.job, e.now);
    }
  }

  /** The invariant is inductive. */
  lemma NextKeeps(w: World, e: Event)
    requires Inv(w)
    ensures Inv(Next(w, e))
  {
    if e.CreateDevice? || e.CreateInvitation? || e.InvitationCrash? {
      InvitingKeeps(w, e);
    } else if e.Prepare? || e.RequestRevoke? {
      RequestsKeep(w, e);
    } else if e.Claim? {
      ClaimKeeps(w, e.job, e.force, e.call, e.renders, e.now);
    } else if e.AgentInstalls? {
      InstallKeeps(w, e.call);
    } else if e.Succeeds? {
      SucceedKeeps(w, e.call, e.now);
    } else if e.Fails? {
      FailKeeps(w, e.call, e.now);
    } else if e.Recover? {
      RetryKeeps(w.db, RecoverRows(w.db, e.now).jobs);
    }
  }

  lemma {:induction false} RunKeeps(w: World, events: seq<Event>)
    requires Inv(w)
    ensures Inv(Run(w, events))
    decreases |events|
  {
    if events != [] {
      NextKeeps(w, events[0]);
      RunKeeps(Next(w, events[0]), events[1..]);
    }
  }
}
