/**
  The device outbox as a step system over values: the five tables behind activation and
  revocation (devices, credentials, invitations, redemption sessions, sync jobs), the engine
  calls in flight and the recovery config the root agent has installed.

  Every step is one synchronous stretch of the panel (it ends where the panel awaits the
  engine) or one move of the agent, so a run is an arbitrary interleaving of all of them.
  Ids stand for UUIDs. A presented token is the id of the row its hash finds; the derived
  redemption and subscription tokens are the ids they are derived from.
*/
module OutboxModel {
  import opened Common

  type Id = nat
  type Time = int

  datatype DeviceStatus = Invited | Active | Revoked
  datatype Device = Device(status: DeviceStatus, subscription: Option<Id>)
  datatype Credential = Credential(revoked: bool)
  datatype InvitationStatus = Pending | Superseded | Redeeming | Redeemed | Withdrawn
  datatype Invitation = Invitation(device: Id, status: InvitationStatus, expires: Time)
  datatype Session = Session(invitation: Id, device: Id, token: Id, expires: Time)
  datatype Kind = Activate | Revoke
  datatype JobStatus = Waiting | Running | Failed | Completed
  datatype Job = Job(device: Id, invitation: Option<Id>, kind: Kind, status: JobStatus, attempts: nat, nextAttempt: Time)

  datatype Db = Db(
    devices: map<Id, Device>,
    credentials: map<(Id, Engine), Credential>,
    invitations: map<Id, Invitation>,
    sessions: map<Id, Session>,
    jobs: map<Id, Job>)

  /** One request to the root agent; `installed` says whether the agent has installed the recovery config yet. */
  datatype Call = Call(job: Id, device: Id, kind: Kind, installed: bool)

  /**
    `rendered` is the user set in the shared runtime file, `installed` the one in the last
    installed recovery config. `flights` are the calls some `process` is waiting for,
    `orphans` the calls nobody waits for any more but the agent may still carry out.
  */
  datatype World = World(
    db: Db,
    rendered: set<Id>,
    installed: set<Id>,
    flights: map<Id, Call>,
    orphans: map<Id, Call>)

  datatype Event =
    | CreateDevice(device: Id)
    | CreateInvitation(device: Id, invitation: Id, expires: Time)
    | InvitationCrash(device: Id)
    | Prepare(invitation: Id, session: Id, job: Id, now: Time, expires: Time)
    | RequestRevoke(device: Id, job: Id, now: Time)
    | Claim(job: Id, force: bool, call: Id, renders: bool, now: Time)
    | AgentInstalls(call: Id)
    | AgentEnds(call: Id)
    | Succeeds(call: Id, now: Time)
    | Fails(call: Id, now: Time)
    | Crash
    | Recover(now: Time)

  const EMPTY_DB := Db(map[], map[], map[], map[], map[])
  const START := World(EMPTY_DB, {}, {}, map[], map[])

  // ---------- tables ----------

  predicate Open(job: Job) {
    job.status != Completed
  }

  predicate Redeemable(status: InvitationStatus) {
    status.Pending? || status.Redeeming?
  }

  ghost predicate HasOpen(db: Db, device: Id, kind: Kind) {
    exists j :: j in db.jobs && db.jobs[j].device == device && db.jobs[j].kind == kind && Open(db.jobs[j])
  }

  ghost predicate TokenTaken(db: Db, token: Id) {
    exists s :: s in db.sessions && db.sessions[s].token == token
  }

  predicate Live(db: Db, device: Id) {
    && (device, Hysteria) in db.credentials && !db.credentials[(device, Hysteria)].revoked
    && (device, Xray) in db.credentials && !db.credentials[(device, Xray)].revoked
  }

  function ActiveDevices(db: Db): set<Id> {
    set d | d in db.devices && db.devices[d].status == Active
  }

  function WithInvitation(db: Db, i: Id, status: InvitationStatus): Db
    requires i in db.invitations
  {
    db.(invitations := db.invitations[i := db.invitations[i].(status := status)])
  }

  function WithJob(db: Db, j: Id, status: JobStatus, nextAttempt: Time): Db
    requires j in db.jobs
  {
    db.(jobs := db.jobs[j := db.jobs[j].(status := status, nextAttempt := nextAttempt)])
  }

  function Supersede(db: Db, device: Id): Db {
    db.(invitations := map i | i in db.invitations ::
      if db.invitations[i].device == device && db.invitations[i].status == Pending
      then db.invitations[i].(status := Superseded) else db.invitations[i])
  }

  function RevokeRows(db: Db, device: Id): Db
    requires device in db.devices
  {
    db.(
    devices := db.devices[device := Device(Revoked, None)],
    credentials := map k | k in db.credentials :: if k.0 == device then Credential(true) else db.credentials[k],
    invitations := map i | i in db.invitations ::
      if db.invitations[i].device == device && Redeemable(db.invitations[i].status)
      then db.invitations[i].(status := Withdrawn) else db.invitations[i],
    sessions := map s | s in db.sessions && db.sessions[s].device != device :: db.sessions[s])
  }

  // ---------- backoff ----------

  function Pow2(n: nat): nat {
    if n == 0 then 1 else 2 * Pow2(n - 1)
  }

  /** The wait after the given number of attempts, in milliseconds. */
  function Backoff(attempts: nat): Time {
    1000 * Min(300, 5 * Pow2(if attempts == 0 then 0 else attempts - 1))
  }

  // ---------- steps of the panel ----------

  ghost function PrepareRows(db: Db, i: Id, s: Id, j: Id, now: Time, expires: Time): Db {
    if i !in db.invitations || db.invitations[i].expires <= now || !Redeemable(db.invitations[i].status)
    then db
    else
      var device := db.invitations[i].device;
      if HasOpen(db, device, Activate) then db
      else if TokenTaken(db, i) || s in db.sessions || j in db.jobs then db
      else db.(
        invitations := if db.invitations[i].status == Pending
                       then db.invitations[i := db.invitations[i].(status := Redeeming)] else db.invitations,
        sessions := db.sessions[s := Session(i, device, i, expires)],
        jobs := db.jobs[j := Job(device, Some(i), Activate, Waiting, 0, now)])
  }

  ghost function RequestRevokeRows(db: Db, device: Id, j: Id, now: Time): Db {
    if device !in db.devices || db.devices[device].status == Revoked || HasOpen(db, device, Activate) then db
    else if db.devices[device].status == Invited then RevokeRows(db, device)
    else if HasOpen(db, device, Revoke) || j in db.jobs then db
    else db.(jobs := db.jobs[j := Job(device, None, Revoke, Waiting, 0, now)])
  }

  predicate Claimable(db: Db, j: Id, force: bool, now: Time) {
    && j in db.jobs
    && (db.jobs[j].status.Waiting? || db.jobs[j].status.Failed?)
    && (force || db.jobs[j].nextAttempt <= now)
  }

  function ClaimRows(db: Db, j: Id): Db
    requires j in db.jobs
  {
    db.(jobs := db.jobs[j := db.jobs[j].(status := Running, attempts := db.jobs[j].attempts + 1)])
  }

  function FailRows(db: Db, j: Id, now: Time): Db
    requires j in db.jobs
  {
    WithJob(db, j, Failed, now + Backoff(db.jobs[j].attempts))
  }

  /** The user set `renderRecovery` writes for a call of this kind. */
  function RecoverySet(db: Db, kind: Kind, device: Id): set<Id> {
    if kind == Activate
    then ActiveDevices(db) + (if device in db.devices then {device} else {})
    else ActiveDevices(db) - {device}
  }

  /** `add` and `revoke` reach the agent only when every credential they read is live. */
  predicate CanCall(db: Db, kind: Kind, device: Id) {
    Live(db, device) && forall d | d in RecoverySet(db, kind, device) :: Live(db, d)
  }

  /** `completeActivation`, or `completeRevocation`, followed by completing the job; None when it throws. */
  function CommitRows(db: Db, j: Id, now: Time): Option<Db>
    requires j in db.jobs
  {
    var job := db.jobs[j];
    if job.device !in db.devices then None
    else if job.kind == Revoke then Some(WithJob(RevokeRows(db, job.device), j, Completed, now))
    else if job.invitation.None? || job.invitation.value !in db.invitations then None
    else
      var activated := db.(devices := db.devices[job.device := Device(Active, Some(job.device))]);
      Some(WithJob(WithInvitation(activated, job.invitation.value, Redeemed), j, Completed, now))
  }

  function RecoverRows(db: Db, now: Time): Db {
    db.(jobs := map j | j in db.jobs ::
      if db.jobs[j].status == Running then db.jobs[j].(status := Failed, nextAttempt := now) else db.jobs[j])
  }

  // ---------- the step function ----------

  function CreateDeviceStep(w: World, d: Id): World {
    if d in w.db.devices then w
    else w.(db := w.db.(
      devices := w.db.devices[d := Device(Invited, None)],
      credentials := w.db.credentials[(d, Hysteria) := Credential(false)][(d, Xray) := Credential(false)]))
  }

  function CreateInvitationStep(w: World, d: Id, i: Id, expires: Time): World {
    if d !in w.db.devices || w.db.devices[d].status == Revoked || i in w.db.invitations then w
    else
      var db := Supersede(w.db, d);
      w.(db := db.(invitations := db.invitations[i := Invitation(d, Pending, expires)]))
  }

  /** Claim the job, then the synchronous part of the engine call up to the request to the agent. */
  function ClaimStep(w: World, j: Id, force: bool, c: Id, renders: bool, now: Time): World {
    if !Claimable(w.db, j, force, now) || c in w.flights || c in w.orphans then w
    else
      var db := ClaimRows(w.db, j);
      var job := db.jobs[j];
      if !CanCall(db, job.kind, job.device) || !renders then w.(db := FailRows(db, j, now))
      else w.(db := db, rendered := RecoverySet(db, job.kind, job.device),
              flights := w.flights[c := Call(j, job.device, job.kind, false)])
  }

  /** The agent installs whatever the shared runtime file holds by then. */
  function InstallStep(w: World, c: Id): World {
    if c in w.flights && !w.flights[c].installed
    then w.(installed := w.rendered, flights := w.flights[c := w.flights[c].(installed := true)])
    else if c in w.orphans && !w.orphans[c].installed
    then w.(installed := w.rendered, orphans := w.orphans[c := w.orphans[c].(installed := true)])
    else w
  }

  function SucceedStep(w: World, c: Id, now: Time): World {
    if c !in w.flights || !w.flights[c].installed || w.flights[c].job !in w.db.jobs then w
    else
      var j := w.flights[c].job;
      var after := CommitRows(w.db, j, now);
      w.(db := if after.Some? then after.value else FailRows(w.db, j, now), flights := w.flights - {c})
  }

  /** The call fails for the panel, before or after the install; the agent may still be at it. */
  function FailStep(w: World, c: Id, now: Time): World {
    if c !in w.flights || w.flights[c].job !in w.db.jobs then w
    else w.(db := FailRows(w.db, w.flights[c].job, now), flights := w.flights - {c},
            orphans := w.orphans[c := w.flights[c]])
  }

  ghost function Next(w: World, e: Event): World {
    match e
    case CreateDevice(d) => CreateDeviceStep(w, d)
    case CreateInvitation(d, i, expires) => CreateInvitationStep(w, d, i, expires)
    case InvitationCrash(d) => w.(db := Supersede(w.db, d))
    case Prepare(i, s, j, now, expires) => w.(db := PrepareRows(w.db, i, s, j, now, expires))
    case RequestRevoke(d, j, now) => w.(db := RequestRevokeRows(w.db, d, j, now))
    case Claim(j, force, c, renders, now) => ClaimStep(w, j, force, c, renders, now)
    case AgentInstalls(c) => InstallStep(w, c)
    case AgentEnds(c) => w.(orphans := w.orphans - {c})
    case Succeeds(c, now) => SucceedStep(w, c, now)
    case Fails(c, now) => FailStep(w, c, now)
    case Crash => w.(flights := map[], orphans := w.orphans + w.flights)
    case Recover(now) => if w.flights == map[] then w.(db := RecoverRows(w.db, now)) else w
  }

  ghost function Run(w: World, events: seq<Event>): World
    decreases |events|
  {
    if events == [] then w else Run(Next(w, events[0]), events[1..])
  }

  // ---------- read side ----------

  datatype Redemption = Missing | NotYet(device: Id) | Installed(device: Id, subscription: Id)

  ghost predicate SessionOf(db: Db, token: Id, s: Id) {
    s in db.sessions && db.sessions[s].token == token
  }

  ghost predicate ActivationOf(db: Db, invitation: Id, j: Id) {
    j in db.jobs && db.jobs[j].kind == Activate && db.jobs[j].invitation == Some(invitation)
  }

  /** What polling a redemption token answers. */
  ghost function Redeem(db: Db, token: Id, now: Time): Redemption {
    if s :| SessionOf(db, token, s) then
      var session := db.sessions[s];
      if session.expires <= now || session.device !in db.devices then Missing
      else if (exists j :: ActivationOf(db, session.invitation, j) && db.jobs[j].status == Completed)
              && db.devices[session.device].status == Active
      then Installed(session.device, session.device)
      else NotYet(session.device)
    else Missing
  }

  /** The devices a subscription token opens. */
  function BySubscription(db: Db, token: Id): set<Id> {
    set d | d in db.devices && db.devices[d].subscription == Some(token) && db.devices[d].status == Active
  }
}
