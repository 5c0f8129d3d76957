/**
  What single steps do, said of the rows themselves, in every reachable state: what a start of the
  panel does to interrupted jobs, when a claim goes out, what a link is good for, what polling
  answers, and that no step touches the rows of another device.
*/
module OutboxSteps {
  import opened Common
  import opened OutboxModel
  import opened OutboxSafety
  import opened OutboxRuns

  // ---------- a start of the panel ----------

  /** When the panel starts, exactly the running jobs become failed and due at once, and nothing else changes. */
  lemma RecoveryRestarts(events: seq<Event>, now: Time)
    requires Run(START, events).flights == map[]
    ensures var w := Run(START, events);
            var after := Next(w, Recover(now));
            && after.db.jobs.Keys == w.db.jobs.Keys
            && (forall j :: j in w.db.jobs ==> after.db.jobs[j].status != Running)
            && (forall j :: j in w.db.jobs ==>
                  after.db.jobs[j] == if w.db.jobs[j].status == Running then w.db.jobs[j].(status := Failed, nextAttempt := now) else w.db.jobs[j])
            && after == w.(db := w.db.(jobs := after.db.jobs))
  {
  }

  /** The users a call for the job would let in all have their credentials, and so has its own device. */
  predicate Equipped(db: Db, job: Job) {
    && Live(db, job.device)
    && forall d | d in db.devices :: db.devices[d].status == Active && (job.kind == Revoke ==> d != job.device) ==> Live(db, d)
  }

  /** The job may be claimed now: it is neither running nor completed, and forced or due. */
  predicate MayRun(w: World, j: Id, force: bool, c: Id, now: Time) {
    && j in w.db.jobs && (w.db.jobs[j].status == Waiting || w.db.jobs[j].status == Failed)
    && (force || w.db.jobs[j].nextAttempt <= now) && c !in w.flights && c !in w.orphans
  }

  lemma EquippedIs(db: Db, job: Job)
    requires job.device in db.devices
    ensures Equipped(db, job) <==> CanCall(db, job.kind, job.device)
  {
  }

  /**
    A claim does nothing unless the job may run. Otherwise it raises its attempts by one, and either
    the call goes out and the job is running, or, when credentials are missing or the file cannot be
    written, the job is failed and due after the backoff of its attempts.
  */
  lemma ClaimSays(w: World, j: Id, force: bool, c: Id, renders: bool, now: Time)
    requires j in w.db.jobs ==> w.db.jobs[j].device in w.db.devices
    ensures var after := Next(w, Claim(j, force, c, renders, now));
            if !MayRun(w, j, force, c, now) then after == w
            else
              var job := w.db.jobs[j];
              && j in after.db.jobs && after.db.jobs[j].attempts == job.attempts + 1
              && (c in after.flights <==> renders && Equipped(w.db, job))
              && (c in after.flights ==> after.db.jobs[j].status == Running && after.flights[c] == Call(j, job.device, job.kind, false))
              && (c !in after.flights ==> after.db.jobs[j].status == Failed && after.db.jobs[j].nextAttempt == now + Backoff(job.attempts + 1))
  {
    if MayRun(w, j, force, c, now) {
      var db := ClaimRows(w.db, j);
      EquippedIs(w.db, w.db.jobs[j]);
      assert RecoverySet(db, w.db.jobs[j].kind, w.db.jobs[j].device) == RecoverySet(w.db, w.db.jobs[j].kind, w.db.jobs[j].device);
    }
  }

  lemma ReachableJob(events: seq<Event>, j: Id)
    requires j in Run(START, events).db.jobs
    ensures Run(START, events).db.jobs[j].device in Run(START, events).db.devices
  {
    ReachableInv(events);
    var w := Run(START, events);
    assert JobOk(w.db.devices, w.db.invitations, w.db.jobs[j]);
  }

  /** In every run: when a claim goes out, and what becomes of the job otherwise. */
  lemma ClaimGoesOutIff(events: seq<Event>, j: Id, force: bool, c: Id, renders: bool, now: Time)
    requires j in Run(START, events).db.jobs
    ensures var w := Run(START, events); var job := w.db.jobs[j];
            var after := Next(w, Claim(j, force, c, renders, now));
            if !MayRun(w, j, force, c, now) then after == w
            else
              && j in after.db.jobs && after.db.jobs[j].attempts == job.attempts + 1
              && (c in after.flights <==> renders && Equipped(w.db, job))
              && (c in after.flights ==> after.db.jobs[j].status == Running && after.flights[c] == Call(j, job.device, job.kind, false))
              && (c !in after.flights ==> after.db.jobs[j].status == Failed && after.db.jobs[j].nextAttempt == now + Backoff(job.attempts + 1))
  {
    ReachableJob(events, j);
    ClaimSays(Run(START, events), j, force, c, renders, now);
  }

  // ---------- jobs can be completed ----------

  function Served(w: World, c: Id, now: Time): World {
    SucceedStep(InstallStep(w, c), c, now)
  }

  lemma CommitCompletes(db: Db, j: Id, now: Time)
    requires Tables(db) && j in db.jobs && Open(db.jobs[j])
    ensures var after := CommitRows(db, j, now);
            && after.Some? && j in after.value.jobs && after.value.jobs[j].status == Completed
            && db.jobs[j].device in after.value.devices
            && after.value.devices[db.jobs[j].device].status == if db.jobs[j].kind == Activate then Active else Revoked
  {
    CommitKeeps(db, j, now);
  }

  lemma ServedCompletes(w: World, c: Id, now: Time)
    requires Tables(w.db) && c in w.flights && CallOk(w.db.jobs, w.flights[c])
    ensures var after, call := Served(w, c, now).db, w.flights[c];
            && call.job in after.jobs && after.jobs[call.job].status == Completed && call.device in after.devices
            && after.devices[call.device].status == if call.kind == Activate then Active else Revoked
  {
    CommitCompletes(w.db, w.flights[c].job, now);
  }

  lemma ServedIs(w: World, c: Id, now: Time)
    ensures Run(w, [AgentInstalls(c)] + [Succeeds(c, now)]) == Served(w, c, now)
  {
    RunSplits(w, [AgentInstalls(c)], [Succeeds(c, now)]);
    RunOne(w, AgentInstalls(c));
    RunOne(InstallStep(w, c), Succeeds(c, now));
  }

  /** A call under way can be carried out and confirmed; then its job is completed and its device active or revoked. */
  lemma CallCanComplete(events: seq<Event>, c: Id, now: Time)
    requires c in Run(START, events).flights
    ensures var w := Run(START, events); var call := w.flights[c];
            var db := Run(w, [AgentInstalls(c)] + [Succeeds(c, now)]).db;
            && call.job in db.jobs && db.jobs[call.job].status == Completed && call.device in db.devices
            && db.devices[call.device].status == if call.kind == Activate then Active else Revoked
  {
    ReachableInv(events);
    var w := Run(START, events);
    assert CallOk(w.db.jobs, w.flights[c]);
    ServedIs(w, c, now);
    ServedCompletes(w, c, now);
  }

  lemma RecoveredRow(events: seq<Event>, j: Id, c: Id, now: Time)
    requires var w := Run(START, events);
             w.flights == map[] && c !in w.orphans && j in w.db.jobs && w.db.jobs[j].status == Running
    ensures var w := Run(START, events); var after := Run(START, events + [Recover(now)]);
            && after == Next(w, Recover(now)) && j in after.db.jobs && MayRun(after, j, false, c, now)
            && after.db.jobs[j].attempts == w.db.jobs[j].attempts
            && (Equipped(w.db, w.db.jobs[j]) <==> Equipped(after.db, after.db.jobs[j]))
  {
    RecoveryRestarts(events, now);
    RunSplits(START, events, [Recover(now)]);
    RunOne(Run(START, events), Recover(now));
  }

  /**
    A job a crash has interrupted is taken up again: after the start an unforced claim raises its
    attempts, and with live credentials the run goes on to complete it.
  */
  lemma InterruptedJobIsTakenUp(events: seq<Event>, j: Id, c: Id, now: Time)
    requires var w := Run(START, events);
             w.flights == map[] && c !in w.orphans && j in w.db.jobs && w.db.jobs[j].status == Running
    ensures var w := Run(START, events);
            var claimed := Run(START, events + [Recover(now)] + [Claim(j, false, c, true, now)]);
            && j in claimed.db.jobs && claimed.db.jobs[j].attempts == w.db.jobs[j].attempts + 1
            && (Equipped(w.db, w.db.jobs[j]) ==>
                  var done := Run(claimed, [AgentInstalls(c)] + [Succeeds(c, now)]).db.jobs;
                  j in done && done[j].status == Completed)
  {
    RecoveredRow(events, j, c, now);
    var recovered, claim := events + [Recover(now)], Claim(j, false, c, true, now);
    RunSplits(START, recovered, [claim]);
    RunOne(Run(START, recovered), claim);
    ClaimGoesOutIff(recovered, j, false, c, true, now);
    if Equipped(Run(START, events).db, Run(START, events).db.jobs[j]) { CallCanComplete(recovered + [claim], c, now); }
  }

  // ---------- calls that were given up ----------

  /** A call whose `process` failed or died is with the agent still, and may install at any time. */
  lemma GivenUpMayInstall(w: World, c: Id, now: Time)
    requires c in w.flights && !w.flights[c].installed && w.flights[c].job in w.db.jobs
    ensures var failed, crashed := Next(w, Fails(c, now)), Next(w, Crash);
            && c !in failed.flights && crashed.flights == map[]
            && Next(failed, AgentInstalls(c)).installed == w.rendered
            && Next(crashed, AgentInstalls(c)).installed == w.rendered
            && forall k :: k != c ==> Next(Next(failed, AgentEnds(k)), AgentInstalls(c)).installed == w.rendered
  {
  }

  // ---------- links ----------

  /** A new link is pending until its own date, and the device's older pending links are superseded. */
  lemma LinkIsCreated(w: World, d: Id, i: Id, expires: Time)
    requires d in w.db.devices && w.db.devices[d].status != Revoked && i !in w.db.invitations
    ensures var after := Next(w, CreateInvitation(d, i, expires)).db.invitations;
            && after.Keys == w.db.invitations.Keys + {i} && after[i] == Invitation(d, Pending, expires)
            && forall k :: k in w.db.invitations ==>
                 after[k] == if w.db.invitations[k].device == d && w.db.invitations[k].status == Pending
                             then w.db.invitations[k].(status := Superseded) else w.db.invitations[k]
  {
  }

  ghost predicate OpenActivation(db: Db, d: Id) {
    exists j :: j in db.jobs && db.jobs[j].device == d && db.jobs[j].kind == Activate && db.jobs[j].status != Completed
  }

  /**
    What redeeming a link does in every reachable state: with no open activation of its device, and
    while the link is pending or redeeming and not expired, it reserves the link, with a session and
    an activation that is due at once; otherwise nothing.
  */
  lemma LinkIsRedeemedIff(events: seq<Event>, i: Id, s: Id, j: Id, now: Time, expires: Time)
    requires var db := Run(START, events).db; s !in db.sessions && j !in db.jobs
    ensures var db := Run(START, events).db;
            var after := Next(Run(START, events), Prepare(i, s, j, now, expires)).db;
            if i in db.invitations && now < db.invitations[i].expires && Redeemable(db.invitations[i].status)
               && !OpenActivation(db, db.invitations[i].device)
            then
              var d := db.invitations[i].device;
              && after.sessions == db.sessions[s := Session(i, d, i, expires)]
              && after.jobs == db.jobs[j := Job(d, Some(i), Activate, Waiting, 0, now)]
              && after.invitations == db.invitations[i := db.invitations[i].(status := Redeeming)]
              && after.devices == db.devices && after.credentials == db.credentials
            else after == db
  {
    ReachableInv(events);
    var db := Run(START, events).db;
    if i in db.invitations && Redeemable(db.invitations[i].status) && !HasOpen(db, db.invitations[i].device, Activate) {
      PrepareFindsFresh(db, i);
    }
  }

  /** A new device is invited, without a subscription, and has two live credentials. */
  lemma DeviceIsCreated(w: World, d: Id)
    requires d !in w.db.devices
    ensures var after := Next(w, CreateDevice(d)).db;
            && after.devices == w.db.devices[d := Device(Invited, None)]
            && after.credentials.Keys == w.db.credentials.Keys + {(d, Hysteria), (d, Xray)} && Live(after, d)
  {
  }

  // ---------- revoking and confirming ----------

  /** Everything that let the device in is gone from `b`, and all else is as in `a`, but for the jobs. */
  ghost predicate Expelled(a: Db, b: Db, d: Id) {
    && b.devices == a.devices[d := Device(Revoked, None)]
    && b.credentials.Keys == a.credentials.Keys
    && (forall k: (Id, Engine) :: k in a.credentials ==> b.credentials[k] == if k.0 == d then Credential(true) else a.credentials[k])
    && b.invitations.Keys == a.invitations.Keys
    && (forall i :: i in a.invitations ==>
          b.invitations[i] == if a.invitations[i].device == d && (a.invitations[i].status == Pending || a.invitations[i].status == Redeeming)
                              then a.invitations[i].(status := Withdrawn) else a.invitations[i])
    && (forall s :: s in b.sessions <==> s in a.sessions && a.sessions[s].device != d)
    && (forall s :: s in b.sessions ==> b.sessions[s] == a.sessions[s])
  }

  lemma RevokeRowsExpel(db: Db, d: Id)
    requires d in db.devices
    ensures Expelled(db, RevokeRows(db, d), d) && RevokeRows(db, d).jobs == db.jobs
  {
  }

  /** An invited device is revoked on the spot; an active one gets a revocation that is due at once, unless one is open. */
  lemma RevocationIsAsked(w: World, d: Id, j: Id, now: Time)
    requires d in w.db.devices && w.db.devices[d].status != Revoked && !OpenActivation(w.db, d) && j !in w.db.jobs
    ensures var after := Next(w, RequestRevoke(d, j, now));
            if w.db.devices[d].status == Invited then
              after == w.(db := after.db) && Expelled(w.db, after.db, d) && after.db.jobs == w.db.jobs
            else if exists k :: k in w.db.jobs && w.db.jobs[k].device == d && w.db.jobs[k].kind == Revoke && w.db.jobs[k].status != Completed then
              after == w
            else after == w.(db := w.db.(jobs := w.db.jobs[j := Job(d, None, Revoke, Waiting, 0, now)]))
  {
    assert !HasOpen(w.db, d, Activate);
    if w.db.devices[d].status == Invited { RevokeRowsExpel(w.db, d); }
  }

  lemma CommitSays(db: Db, j: Id, now: Time)
    requires j in db.jobs && JobOk(db.devices, db.invitations, db.jobs[j])
    ensures var job, after := db.jobs[j], CommitRows(db, j, now);
            && after.Some?
            && after.value.jobs == db.jobs[j := job.(status := Completed, nextAttempt := now)]
            && if job.kind == Revoke then Expelled(db, after.value, job.device)
               else
                 && after.value.devices == db.devices[job.device := Device(Active, Some(job.device))]
                 && after.value.invitations == db.invitations[job.invitation.value := db.invitations[job.invitation.value].(status := Redeemed)]
                 && after.value.credentials == db.credentials && after.value.sessions == db.sessions
  {
    RevokeRowsExpel(db, db.jobs[j].device);
  }

  /** What a confirmed call leaves of the tables: exactly the rows of an activation or of a revocation have changed. */
  lemma ConfirmationSays(events: seq<Event>, c: Id, now: Time)
    requires var w := Run(START, events); c in w.flights && w.flights[c].installed
    ensures var w := Run(START, events); var after := Next(w, Succeeds(c, now)); var j := w.flights[c].job;
            && j in w.db.jobs && after == World(after.db, w.rendered, w.installed, w.flights - {c}, w.orphans)
            && var job := w.db.jobs[j];
               && after.db.jobs == w.db.jobs[j := job.(status := Completed, nextAttempt := now)]
               && if job.kind == Revoke then Expelled(w.db, after.db, job.device)
                  else
                    && after.db.devices == w.db.devices[job.device := Device(Active, Some(job.device))]
                    && job.invitation.Some? && job.invitation.value in w.db.invitations
                    && after.db.invitations == w.db.invitations[job.invitation.value := w.db.invitations[job.invitation.value].(status := Redeemed)]
                    && after.db.credentials == w.db.credentials && after.db.sessions == w.db.sessions
  {
    ReachableInv(events);
    var w := Run(START, events);
    assert CallOk(w.db.jobs, w.flights[c]);
    assert JobOk(w.db.devices, w.db.invitations, w.db.jobs[w.flights[c].job]);
    CommitSays(w.db, w.flights[c].job, now);
  }

  // ---------- other devices ----------

  /** Whether a step concerns the device. */
  predicate Concerns(w: World, e: Event, d: Id) {
    match e
    case CreateDevice(k) => k == d
    case CreateInvitation(k, _, _) => k == d
    case InvitationCrash(k) => k == d
    case Prepare(i, _, _, _, _) => i in w.db.invitations && w.db.invitations[i].device == d
    case RequestRevoke(k, _, _) => k == d
    case Claim(j, _, _, _, _) => j in w.db.jobs && w.db.jobs[j].device == d
    case Succeeds(c, _) => c in w.flights && w.flights[c].device == d
    case Fails(c, _) => c in w.flights && w.flights[c].device == d
    case Recover(_) => true
    case _ => false
  }

  /** The rows of the device are the same in both. */
  ghost predicate SameRows(a: Db, b: Db, d: Id) {
    && (d in a.devices <==> d in b.devices) && (d in a.devices ==> a.devices[d] == b.devices[d])
    && (forall k: (Id, Engine) :: k.0 == d ==> (k in a.credentials <==> k in b.credentials))
    && (forall k: (Id, Engine) :: k.0 == d && k in a.credentials ==> a.credentials[k] == b.credentials[k])
    && (forall i :: i in a.invitations && a.invitations[i].device == d ==> i in b.invitations && b.invitations[i] == a.invitations[i])
    && (forall i :: i in b.invitations && b.invitations[i].device == d ==> i in a.invitations && b.invitations[i] == a.invitations[i])
    && (forall s :: s in a.sessions && a.sessions[s].device == d ==> s in b.sessions && b.sessions[s] == a.sessions[s])
    && (forall s :: s in b.sessions && b.sessions[s].device == d ==> s in a.sessions && b.sessions[s] == a.sessions[s])
    && (forall j :: j in a.jobs && a.jobs[j].device == d ==> j in b.jobs && b.jobs[j] == a.jobs[j])
    && (forall j :: j in b.jobs && b.jobs[j].device == d ==> j in a.jobs && b.jobs[j] == a.jobs[j])
  }

  lemma RevokeRowsLeave(db: Db, k: Id, d: Id)
    requires k in db.devices && k != d
    ensures SameRows(db, RevokeRows(db, k), d)
  {
  }

  lemma JobLeaves(a: Db, b: Db, d: Id, j: Id, status: JobStatus, next: Time)
    requires SameRows(a, b, d) && j in b.jobs && b.jobs[j].device != d
    ensures SameRows(a, WithJob(b, j, status, next), d)
  {
  }

  lemma ActivateLeaves(db: Db, k: Id, i: Id, d: Id)
    requires k != d && i in db.invitations && db.invitations[i].device == k
    ensures SameRows(db, WithInvitation(db.(devices := db.devices[k := Device(Active, Some(k))]), i, Redeemed), d)
  {
  }

  lemma CommitLeaves(db: Db, j: Id, now: Time, d: Id)
    requires j in db.jobs && JobOk(db.devices, db.invitations, db.jobs[j]) && db.jobs[j].device != d
    ensures CommitRows(db, j, now).Some? && SameRows(db, CommitRows(db, j, now).value, d)
  {
    var job := db.jobs[j];
    if job.kind == Revoke {
      RevokeRowsLeave(db, job.device, d);
      JobLeaves(db, RevokeRows(db, job.device), d, j, Completed, now);
    } else {
      ActivateLeaves(db, job.device, job.invitation.value, d);
      JobLeaves(db, WithInvitation(db.(devices := db.devices[job.device := Device(Active, Some(job.device))]), job.invitation.value, Redeemed),
                d, j, Completed, now);
    }
  }

  lemma SucceedLeaves(w: World, c: Id, now: Time, d: Id)
    requires c in w.flights && w.flights[c].device != d && CallOk(w.db.jobs, w.flights[c])
    requires JobOk(w.db.devices, w.db.invitations, w.db.jobs[w.flights[c].job])
    ensures SameRows(w.db, SucceedStep(w, c, now).db, d)
  {
    CommitLeaves(w.db, w.flights[c].job, now, d);
  }

  lemma FailIs(w: World, c: Id, now: Time)
    requires c in w.flights && w.flights[c].job in w.db.jobs
    ensures var j := w.flights[c].job;
            FailStep(w, c, now).db == WithJob(w.db, j, Failed, now + Backoff(w.db.jobs[j].attempts))
  {
  }

  lemma OneJobLeaves(db: Db, j: Id, status: JobStatus, next: Time, d: Id)
    requires j in db.jobs && db.jobs[j].device != d
    ensures SameRows(db, WithJob(db, j, status, next), d)
  {
    JobLeaves(db, db, d, j, status, next);
  }

  lemma FailLeaves(w: World, c: Id, now: Time, d: Id)
    requires c in w.flights && w.flights[c].device != d && CallOk(w.db.jobs, w.flights[c])
    ensures SameRows(w.db, FailStep(w, c, now).db, d)
  {
    var j := w.flights[c].job;
    FailIs(w, c, now);
    OneJobLeaves(w.db, j, Failed, now + Backoff(w.db.jobs[j].attempts), d);
  }

  lemma CallsLeave(w: World, e: Event, d: Id)
    requires Inv(w) && !Concerns(w, e, d) && (e.Succeeds? || e.Fails?)
    ensures SameRows(w.db, Next(w, e).db, d)
  {
    if e.call in w.flights {
      assert CallOk(w.db.jobs, w.flights[e.call]);
      assert JobOk(w.db.devices, w.db.invitations, w.db.jobs[w.flights[e.call].job]);
      if e.Succeeds? {
        SucceedLeaves(w, e.call, e.now, d);
      } else {
        FailLeaves(w, e.call, e.now, d);
      }
    }
  }

  lemma RequestLeaves(db: Db, k: Id, j: Id, now: Time, d: Id)
    requires k != d
    ensures SameRows(db, RequestRevokeRows(db, k, j, now), d)
  {
    if k in db.devices { RevokeRowsLeave(db, k, d); }
  }

  lemma CreateLeaves(w: World, k: Id, d: Id)
    requires k != d
    ensures SameRows(w.db, CreateDeviceStep(w, k).db, d)
  {
  }

  lemma SupersedeLeaves(db: Db, k: Id, d: Id)
    requires k != d
    ensures SameRows(db, Supersede(db, k), d)
  {
  }

  lemma InviteLeaves(w: World, k: Id, i: Id, expires: Time, d: Id)
    requires k != d
    ensures SameRows(w.db, CreateInvitationStep(w, k, i, expires).db, d)
  {
    SupersedeLeaves(w.db, k, d);
  }

  lemma PrepareLeaves(db: Db, i: Id, s: Id, j: Id, now: Time, expires: Time, d: Id)
    requires i in db.invitations ==> db.invitations[i].device != d
    ensures SameRows(db, PrepareRows(db, i, s, j, now, expires), d)
  {
  }

  lemma ClaimLeaves(w: World, j: Id, force: bool, c: Id, renders: bool, now: Time, d: Id)
    requires j in w.db.jobs ==> w.db.jobs[j].device != d
    ensures SameRows(w.db, ClaimStep(w, j, force, c, renders, now).db, d)
  {
  }

  lemma RowsLeave(w: World, e: Event, d: Id)
    requires !Concerns(w, e, d) && (e.CreateDevice? || e.CreateInvitation? || e.InvitationCrash? || e.Prepare? || e.Claim?)
    ensures SameRows(w.db, Next(w, e).db, d)
  {
    match e
    case CreateDevice(k) => CreateLeaves(w, k, d);
    case CreateInvitation(k, i, expires) => InviteLeaves(w, k, i, expires, d);
    case InvitationCrash(k) => SupersedeLeaves(w.db, k, d);
    case Prepare(i, s, j, now, expires) => PrepareLeaves(w.db, i, s, j, now, expires, d);
    case Claim(j, force, c, renders, now) => ClaimLeaves(w, j, force, c, renders, now, d);
  }

  lemma AgentLeaves(w: World, e: Event, d: Id)
    requires e.AgentInstalls? || e.AgentEnds? || e.Crash?
    ensures SameRows(w.db, Next(w, e).db, d)
  {
  }

  lemma StepLeaves(w: World, e: Event, d: Id)
    requires !Concerns(w, e, d) && !e.Succeeds? && !e.Fails?
    ensures SameRows(w.db, Next(w, e).db, d)
  {
    if e.RequestRevoke? {
      RequestLeaves(w.db, e.device, e.job, e.now, d);
    } else if e.AgentInstalls? || e.AgentEnds? || e.Crash? {
      AgentLeaves(w, e, d);
    } else {
      RowsLeave(w, e, d);
    }
  }

  /** In every reachable state, a step that does not concern a device leaves all its rows as they are. */
  lemma OtherDevicesStay(events: seq<Event>, e: Event, d: Id)
    requires !Concerns(Run(START, events), e, d)
    ensures SameRows(Run(START, events).db, Next(Run(START, events), e).db, d)
  {
    if e.Succeeds? || e.Fails? {
      ReachableInv(events);
      CallsLeave(Run(START, events), e, d);
    } else {
      StepLeaves(Run(START, events), e, d);
    }
  }

  // ---------- what polling answers ----------

  /** A redeemed invitation has its completed activation. */
  ghost predicate RedeemedServed(db: Db) {
    forall i :: i in db.invitations && db.invitations[i].status == Redeemed ==>
      exists j :: j in db.jobs && db.jobs[j].kind == Activate && db.jobs[j].invitation == Some(i) && db.jobs[j].status == Completed
  }

  /** No more invitations are redeemed, and completed activations stay. */
  ghost predicate NoneRedeemed(a: Db, b: Db) {
    && (forall i :: i in b.invitations && b.invitations[i].status == Redeemed ==> i in a.invitations && a.invitations[i].status == Redeemed)
    && (forall j :: j in a.jobs && a.jobs[j].status == Completed ==> j in b.jobs && b.jobs[j] == a.jobs[j])
  }

  lemma NoneRedeemedKeeps(a: Db, b: Db)
    requires RedeemedServed(a) && NoneRedeemed(a, b)
    ensures RedeemedServed(b)
  {
    forall i | i in b.invitations && b.invitations[i].status == Redeemed
      ensures exists j :: j in b.jobs && b.jobs[j].kind == Activate && b.jobs[j].invitation == Some(i) && b.jobs[j].status == Completed
    {
      var j :| j in a.jobs && a.jobs[j].kind == Activate && a.jobs[j].invitation == Some(i) && a.jobs[j].status == Completed;
      assert j in b.jobs;
    }
  }

  lemma CommitRedeems(db: Db, j: Id, now: Time)
    requires RedeemedServed(db) && j in db.jobs && JobOk(db.devices, db.invitations, db.jobs[j]) && Open(db.jobs[j])
    ensures CommitRows(db, j, now).Some? && RedeemedServed(CommitRows(db, j, now).value)
  {
    var after := CommitRows(db, j, now).value;
    assert j in after.jobs && after.jobs[j] == db.jobs[j].(status := Completed, nextAttempt := now);
    assert forall k :: k in db.jobs && k != j ==> k in after.jobs && after.jobs[k] == db.jobs[k];
    forall i | i in after.invitations && after.invitations[i].status == Redeemed
      ensures exists k :: k in after.jobs && after.jobs[k].kind == Activate && after.jobs[k].invitation == Some(i) && after.jobs[k].status == Completed
    {
      if !(db.jobs[j].kind == Activate && db.jobs[j].invitation == Some(i)) {
        assert i in db.invitations && db.invitations[i].status == Redeemed;
        var k :| k in db.jobs && db.jobs[k].kind == Activate && db.jobs[k].invitation == Some(i) && db.jobs[k].status == Completed;
        assert k in after.jobs;
      }
    }
  }

  lemma RequestRedeemsNone(db: Db, d: Id, j: Id, now: Time)
    ensures NoneRedeemed(db, RequestRevokeRows(db, d, j, now))
  {
  }

  lemma ClaimRedeemsNone(w: World, j: Id, force: bool, c: Id, renders: bool, now: Time)
    ensures NoneRedeemed(w.db, ClaimStep(w, j, force, c, renders, now).db)
  {
  }

  lemma PrepareRedeemsNone(db: Db, i: Id, s: Id, j: Id, now: Time, expires: Time)
    ensures NoneRedeemed(db, PrepareRows(db, i, s, j, now, expires))
  {
  }

  lemma FailRedeemsNone(w: World, c: Id, now: Time)
    requires c in w.flights ==> CallOk(w.db.jobs, w.flights[c])
    ensures NoneRedeemed(w.db, FailStep(w, c, now).db)
  {
  }

  lemma PlainRedeemsNone(w: World, e: Event)
    requires e.CreateDevice? || e.CreateInvitation? || e.InvitationCrash? || e.AgentInstalls? || e.AgentEnds? || e.Crash? || e.Recover?
    ensures NoneRedeemed(w.db, Next(w, e).db)
  {
  }

  lemma OthersRedeemNone(w: World, e: Event)
    requires FlightsOk(w.db.jobs, w.flights) && !e.Succeeds?
    ensures NoneRedeemed(w.db, Next(w, e).db)
  {
    match e
    case RequestRevoke(d, j, now) => RequestRedeemsNone(w.db, d, j, now);
    case Claim(j, force, c, renders, now) => ClaimRedeemsNone(w, j, force, c, renders, now);
    case Prepare(i, s, j, now, expires) => PrepareRedeemsNone(w.db, i, s, j, now, expires);
    case Fails(c, now) => FailRedeemsNone(w, c, now);
    case _ => PlainRedeemsNone(w, e);
  }

  lemma NextRedeems(w: World, e: Event)
    requires Inv(w) && RedeemedServed(w.db)
    ensures RedeemedServed(Next(w, e).db)
  {
    if e.Succeeds? {
      if e.call in w.flights {
        assert CallOk(w.db.jobs, w.flights[e.call]);
        assert JobOk(w.db.devices, w.db.invitations, w.db.jobs[w.flights[e.call].job]);
        CommitRedeems(w.db, w.flights[e.call].job, e.now);
      }
    } else {
      OthersRedeemNone(w, e);
      NoneRedeemedKeeps(w.db, Next(w, e).db);
    }
  }

  lemma {:induction false} RunRedeems(w: World, events: seq<Event>)
    requires Inv(w) && RedeemedServed(w.db)
    ensures RedeemedServed(Run(w, events).db)
    decreases |events|
  {
    if events != [] {
      NextRedeems(w, events[0]);
      NextKeeps(w, events[0]);
      RunRedeems(Next(w, events[0]), events[1..]);
    }
  }

  ghost predicate LiveSession(db: Db, token: Id, now: Time) {
    exists s :: s in db.sessions && db.sessions[s].token == token && now < db.sessions[s].expires
  }

  /**
    What polling a redemption token answers in every reachable state: missing without a session that
    is still good; installed exactly when the link has been redeemed and its device is active; not yet
    otherwise.
  */
  lemma PollingAnswers(events: seq<Event>, token: Id, now: Time)
    ensures var db := Run(START, events).db;
            var answer := Redeem(db, token, now);
            && (answer.Missing? <==> !LiveSession(db, token, now))
            && (LiveSession(db, token, now) ==>
                  && token in db.invitations && db.invitations[token].device in db.devices
                  && var d := db.invitations[token].device;
                     answer == if db.invitations[token].status == Redeemed && db.devices[d].status == Active then Installed(d, d) else NotYet(d))
  {
    ReachableInv([]);
    ReachableInv(events);
    RunRedeems(START, events);
    PollOne(Run(START, events).db, token, now);
  }

  /** The answer for a token that has a session, of which there is one at most. */
  lemma RedeemOf(db: Db, token: Id, s: Id, now: Time)
    requires SessionOf(db, token, s) && forall k :: SessionOf(db, token, k) ==> k == s
    ensures var session := db.sessions[s];
            Redeem(db, token, now)
              == if session.expires <= now || session.device !in db.devices then Missing
                 else if (exists j :: ActivationOf(db, session.invitation, j) && db.jobs[j].status == Completed)
                         && db.devices[session.device].status == Active
                 then Installed(session.device, session.device) else NotYet(session.device)
  {
  }

  lemma NoSession(db: Db, token: Id, now: Time)
    requires forall s :: !SessionOf(db, token, s)
    ensures Redeem(db, token, now).Missing? && !LiveSession(db, token, now)
  {
    if s :| s in db.sessions && db.sessions[s].token == token { assert SessionOf(db, token, s); }
  }

  lemma SessionsAreOne(db: Db, token: Id, s: Id)
    requires SessionsOk(db.invitations, db.sessions) && SessionOf(db, token, s)
    ensures forall k :: SessionOf(db, token, k) ==> k == s
    ensures SessionOk(db.invitations, db.sessions[s])
    ensures forall now :: LiveSession(db, token, now) <==> now < db.sessions[s].expires
  {
    forall k | k in db.sessions && db.sessions[k].token == token ensures k == s { assert SessionOf(db, token, k); }
  }

  lemma CompletedIffRedeemed(db: Db, i: Id)
    requires JobsOk(db.devices, db.invitations, db.jobs) && RedeemedServed(db) && i in db.invitations
    ensures (exists j :: ActivationOf(db, i, j) && db.jobs[j].status == Completed) <==> db.invitations[i].status == Redeemed
  {
    if j :| ActivationOf(db, i, j) && db.jobs[j].status == Completed {
      assert JobOk(db.devices, db.invitations, db.jobs[j]);
    }
    if db.invitations[i].status == Redeemed {
      var j :| j in db.jobs && db.jobs[j].kind == Activate && db.jobs[j].invitation == Some(i) && db.jobs[j].status == Completed;
      assert ActivationOf(db, i, j);
    }
  }

  lemma PollOne(db: Db, token: Id, now: Time)
    requires Tables(db) && RedeemedServed(db)
    ensures var answer := Redeem(db, token, now);
            && (answer.Missing? <==> !LiveSession(db, token, now))
            && (LiveSession(db, token, now) ==>
                  && token in db.invitations && db.invitations[token].device in db.devices
                  && var d := db.invitations[token].device;
                     answer == if db.invitations[token].status == Redeemed && db.devices[d].status == Active then Installed(d, d) else NotYet(d))
  {
    if s :| SessionOf(db, token, s) {
      SessionsAreOne(db, token, s);
      RedeemOf(db, token, s, now);
      CompletedIffRedeemed(db, token);
    } else {
      NoSession(db, token, now);
    }
  }
}
