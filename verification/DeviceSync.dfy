/**
  The services behind the outbox as the panel runs them: rows updated in place, each method one
  synchronous stretch. Every method is a step of the runs the invariants are proved about, starts
  in a state that satisfies the invariant, and ends in one.
*/
module DeviceSync {
  import opened Common
  import opened OutboxModel
  import opened OutboxSafety

  function At(created: map<Id, Time>, j: Id): Time {
    if j in created then created[j] else 0
  }

  lemma {:induction false} Oldest(jobs: set<Id>, created: map<Id, Time>) returns (j: Id)
    requires jobs != {}
    ensures j in jobs && forall k :: k in jobs ==> At(created, j) <= At(created, k)
    decreases jobs
  {
    j :| j in jobs;
    if jobs != {j} {
      var k := Oldest(jobs - {j}, created);
      if At(created, k) < At(created, j) { j := k; }
    }
  }

  /** The first jobs in order of creation, as `ORDER BY created_at LIMIT` gives them. */
  method TakeOldest(due: set<Id>, created: map<Id, Time>, limit: nat) returns (batch: seq<Id>)
    ensures |batch| <= limit && (|batch| < limit ==> forall j :: j in due ==> j in batch)
    ensures forall j :: j in batch ==> j in due
    ensures forall a, b :: 0 <= a < b < |batch| ==> batch[a] != batch[b] && At(created, batch[a]) <= At(created, batch[b])
    ensures forall j, k :: j in batch && k in due && k !in batch ==> At(created, j) <= At(created, k)
  {
    batch := [];
    var pending := due;
    while pending != {} && |batch| < limit
      invariant |batch| <= limit
      invariant forall j :: j in due <==> j in pending || j in batch
      invariant forall j :: j in batch ==> j !in pending
      invariant forall a, b :: 0 <= a < b < |batch| ==> batch[a] != batch[b] && At(created, batch[a]) <= At(created, batch[b])
      invariant forall j, k :: j in batch && k in pending ==> At(created, j) <= At(created, k)
      decreases pending
    {
      ghost var oldest := Oldest(pending, created);
      var j :| j in pending && forall k | k in pending :: At(created, j) <= At(created, k);
      batch := batch + [j];
      pending := pending - {j};
    }
  }

  class Database {
    var devices: map<Id, Device>
    var credentials: map<(Id, Engine), Credential>
    var invitations: map<Id, Invitation>
    var sessions: map<Id, Session>
    var jobs: map<Id, Job>
    var created: map<Id, Time>  // created_at of the jobs

    function Rows(): Db
      reads this
    {
      Db(devices, credentials, invitations, sessions, jobs)
    }

    constructor ()
      ensures Rows() == EMPTY_DB && created == map[]
    {
      devices, credentials, invitations, sessions, jobs, created := map[], map[], map[], map[], map[], map[];
    }
  }

  /** The root agent with the runtime file it reads: requests still awaited, requests abandoned, the config it installed. */
  class RootAgent {
    var rendered: set<Id>
    var installed: set<Id>
    var flights: map<Id, Call>
    var orphans: map<Id, Call>

    constructor ()
      ensures rendered == {} && installed == {} && flights == map[] && orphans == map[]
    {
      rendered, installed, flights, orphans := {}, {}, map[], map[];
    }

    /** The agent gets round to installing the rendered config for this request. */
    method Install(db: Database, c: Id)
      requires Inv(Outbox(db, this))
      modifies this
      ensures Inv(Outbox(db, this)) && Outbox(db, this) == InstallStep(old(Outbox(db, this)), c)
    {
      InstallKeeps(Outbox(db, this), c);
      if c in flights && !flights[c].installed {
        installed := rendered;
        flights := flights[c := flights[c].(installed := true)];
      } else if c in orphans && !orphans[c].installed {
        installed := rendered;
        orphans := orphans[c := orphans[c].(installed := true)];
      }
    }
  }

  function Outbox(db: Database, agent: RootAgent): World
    reads db, agent
  {
    World(db.Rows(), agent.rendered, agent.installed, agent.flights, agent.orphans)
  }

  datatype Reply = Done | Refused(status: nat)

  class PeopleService {
    const db: Database

    constructor (db: Database)
      ensures this.db == db
    {
      this.db := db;
    }

    method CreateDevice(agent: RootAgent, d: Id)
      requires Inv(Outbox(db, agent)) && d !in db.devices
      modifies db
      ensures Inv(Outbox(db, agent)) && Outbox(db, agent) == CreateDeviceStep(old(Outbox(db, agent)), d)
    {
      NextKeeps(Outbox(db, agent), OutboxModel.CreateDevice(d));
      db.devices := db.devices[d := Device(Invited, None)];
      db.credentials := db.credentials[(d, Hysteria) := Credential(false)];
      db.credentials := db.credentials[(d, Xray) := Credential(false)];
    }

    method CreateInvitation(agent: RootAgent, d: Id, i: Id, expires: Time) returns (reply: Reply)
      requires Inv(Outbox(db, agent)) && i !in db.invitations
      modifies db
      ensures Inv(Outbox(db, agent)) && Outbox(db, agent) == CreateInvitationStep(old(Outbox(db, agent)), d, i, expires)
      ensures reply == if d !in old(db.devices) then Refused(404)
                       else if old(db.devices)[d].status == Revoked then Refused(409) else Done
    {
      NextKeeps(Outbox(db, agent), OutboxModel.CreateInvitation(d, i, expires));
      if d !in db.devices { return Refused(404); }
      if db.devices[d].status == Revoked { return Refused(409); }
      db.invitations := map k | k in db.invitations ::
        if db.invitations[k].device == d && db.invitations[k].status == Pending
        then db.invitations[k].(status := Superseded) else db.invitations[k];
      db.invitations := db.invitations[i := Invitation(d, Pending, expires)];
      return Done;
    }
  }

  class EngineRuntimeService {
    const db: Database
    const agent: RootAgent

    constructor (db: Database, agent: RootAgent)
      ensures this.db == db && this.agent == agent
    {
      this.db, this.agent := db, agent;
    }

    /** `activeCredentials`: None when a device in the set has no live credential. */
    method ActiveCredentials(kind: Kind, d: Id) returns (users: Option<set<Id>>)
      ensures users == if forall k | k in RecoverySet(db.Rows(), kind, d) :: Live(db.Rows(), k)
                       then Some(RecoverySet(db.Rows(), kind, d)) else None
    {
      var ids := set k | k in db.devices && (db.devices[k].status == Active || (kind == Activate && k == d));
      if kind == Revoke {
        ids := ids - {d};
      }
      assert ids == RecoverySet(db.Rows(), kind, d);
      if exists k | k in ids :: !Live(db.Rows(), k) {
        return None;
      }
      return Some(ids);
    }

    /** `add` and `revoke` up to the request to the agent; `renders` is false when writing the file fails. */
    method Request(job: Id, kind: Kind, d: Id, c: Id, renders: bool) returns (sent: bool)
      modifies agent
      ensures sent == (CanCall(db.Rows(), kind, d) && renders)
      ensures agent.installed == old(agent.installed) && agent.orphans == old(agent.orphans)
      ensures sent ==> agent.rendered == RecoverySet(db.Rows(), kind, d)
                       && agent.flights == old(agent.flights)[c := Call(job, d, kind, false)]
      ensures !sent ==> agent.rendered == old(agent.rendered) && agent.flights == old(agent.flights)
    {
      if !Live(db.Rows(), d) { return false; }
      var users := ActiveCredentials(kind, d);
      if users.None? || !renders { return false; }
      agent.rendered := users.value;
      agent.flights := agent.flights[c := Call(job, d, kind, false)];
      return true;
    }
  }

  class DeviceSyncService {
    const db: Database
    const agent: RootAgent
    const engines: EngineRuntimeService
    var draining: bool

    ghost predicate Wired() {
      engines.db == db && engines.agent == agent
    }

    ghost function State(): World
      reads db, agent
    {
      Outbox(db, agent)
    }

    ghost predicate Valid()
      reads db, agent
    {
      Wired() && Inv(State()) && db.jobs.Keys <= db.created.Keys
    }

    constructor (db: Database, agent: RootAgent, engines: EngineRuntimeService)
      requires engines.db == db && engines.agent == agent && db.Rows() == EMPTY_DB && agent.flights == map[]
      ensures this.db == db && this.agent == agent && this.engines == engines && Valid() && !draining
    {
      this.db, this.agent, this.engines, draining := db, agent, engines, false;
    }

    method RecoverInterrupted(now: Time)
      requires Valid() && agent.flights == map[]
      modifies db`jobs
      ensures Valid() && State() == Next(old(State()), Recover(now))
      ensures forall j :: j in db.jobs <==> j in old(db.jobs)
      ensures forall j :: j in db.jobs ==>
        db.jobs[j] == if old(db.jobs)[j].status == Running then old(db.jobs)[j].(status := Failed, nextAttempt := now) else old(db.jobs)[j]
    {
      RecoverKeeps(State(), now);
      FailRunning(now);
    }

    method FailRunning(now: Time)
      modifies db`jobs
      ensures db.Rows() == RecoverRows(old(db.Rows()), now) && db.jobs.Keys == old(db.jobs.Keys)
    {
      db.jobs := map j | j in db.jobs ::
        if db.jobs[j].status == Running then db.jobs[j].(status := Failed, nextAttempt := now) else db.jobs[j];
    }

    method OpenJob(d: Id, kind: Kind) returns (job: Option<Id>)
      ensures job.Some? <==> HasOpen(db.Rows(), d, kind)
      ensures job.Some? ==> job.value in db.jobs && db.jobs[job.value].device == d && db.jobs[job.value].kind == kind && Open(db.jobs[job.value])
    {
      var found := set j | j in db.jobs && db.jobs[j].device == d && db.jobs[j].kind == kind && Open(db.jobs[j]);
      assert forall j :: j in db.jobs && db.jobs[j].device == d && db.jobs[j].kind == kind && Open(db.jobs[j]) ==> j in found;
      if found == {} { return None; }
      var j :| j in found;
      return Some(j);
    }

    /**
      The job a redeemed link ends up with: the open activation of its device, or a new one. There
      are the refusals of the code and no other: the insert of the derived token never fails.
    */
    method PrepareActivation(i: Id, s: Id, id: Id, now: Time, expires: Time) returns (reply: Reply, job: Id)
      requires Valid() && s !in db.sessions && id !in db.jobs
      modifies db
      ensures Valid() && State() == Next(old(State()), Prepare(i, s, id, now, expires))
      ensures var rows := old(db.Rows());
              reply == if i !in rows.invitations then Refused(404)
                       else if rows.invitations[i].expires <= now || !Redeemable(rows.invitations[i].status) then Refused(410)
                       else Done
      ensures reply.Done? ==> job in db.jobs && db.jobs[job].kind == Activate && Open(db.jobs[job])
                              && db.jobs[job].device == old(db.invitations)[i].device
      ensures db.created == if id in db.jobs then old(db.created)[id := now] else old(db.created)
    {
      job := id;
      NextKeeps(State(), Prepare(i, s, id, now, expires));
      if i !in db.invitations { return Refused(404), job; }
      var invitation := db.invitations[i];
      if invitation.expires <= now || !Redeemable(invitation.status) { return Refused(410), job; }
      var open := OpenJob(invitation.device, Activate);
      if open.Some? { return Done, open.value; }
      PrepareFindsFresh(db.Rows(), i);
      AddActivation(i, s, id, now, expires);
      return Done, job;
    }

    /** The transaction of a first redemption; the indexes on the token and on open jobs hold throughout. */
    method AddActivation(i: Id, s: Id, id: Id, now: Time, expires: Time)
      requires i in db.invitations && !TokenTaken(db.Rows(), i) && s !in db.sessions && id !in db.jobs
      requires Redeemable(db.invitations[i].status) && db.invitations[i].expires > now && !HasOpen(db.Rows(), db.invitations[i].device, Activate)
      modifies db
      ensures db.Rows() == PrepareRows(old(db.Rows()), i, s, id, now, expires)
      ensures db.created == old(db.created)[id := now]
    {
      var invitation := db.invitations[i];
      if invitation.status == Pending {
        db.invitations := db.invitations[i := invitation.(status := Redeeming)];
      }
      db.sessions := db.sessions[s := Session(i, invitation.device, i, expires)];
      db.jobs := db.jobs[id := Job(invitation.device, Some(i), Activate, Waiting, 0, now)];
      db.created := db.created[id := now];
    }

    method RevokeRowsOf(d: Id)
      requires d in db.devices
      modifies db
      ensures db.Rows() == RevokeRows(old(db.Rows()), d) && db.created == old(db.created)
    {
      db.devices := db.devices[d := Device(Revoked, None)];
      db.credentials := map k | k in db.credentials :: if k.0 == d then Credential(true) else db.credentials[k];
      db.invitations := map i | i in db.invitations ::
        if db.invitations[i].device == d && Redeemable(db.invitations[i].status)
        then db.invitations[i].(status := Withdrawn) else db.invitations[i];
      db.sessions := map s | s in db.sessions && db.sessions[s].device != d :: db.sessions[s];
    }

    /** `revoke` up to the point where it has a job to process, or is done without one. */
    method RequestRevocation(d: Id, id: Id, now: Time) returns (reply: Reply, job: Option<Id>)
      requires Valid() && id !in db.jobs
      modifies db
      ensures Valid() && State() == Next(old(State()), RequestRevoke(d, id, now))
      ensures var rows := old(db.Rows());
              && reply == (if d !in rows.devices then Refused(404)
                           else if rows.devices[d].status != Revoked && HasOpen(rows, d, Activate) then Refused(409) else Done)
              && (job.Some? <==> reply.Done? && rows.devices[d].status == Active)
      ensures job.Some? ==> job.value in db.jobs && db.jobs[job.value].kind == Revoke
                            && db.jobs[job.value].device == d && Open(db.jobs[job.value])
      ensures db.created == if id in db.jobs then old(db.created)[id := now] else old(db.created)
    {
      NextKeeps(State(), RequestRevoke(d, id, now));
      if d !in db.devices { return Refused(404), None; }
      if db.devices[d].status == Revoked { return Done, None; }
      var activating := OpenJob(d, Activate);
      if activating.Some? { return Refused(409), None; }
      if db.devices[d].status == Invited {
        RevokeRowsOf(d);
        return Done, None;
      }
      var open := OpenJob(d, Revoke);
      if open.Some? { return Done, open; }
      db.jobs := db.jobs[id := Job(d, None, Revoke, Waiting, 0, now)];
      db.created := db.created[id := now];
      return Done, Some(id);
    }

    method Fail(j: Id, now: Time)
      requires j in db.jobs
      modifies db`jobs
      ensures db.Rows() == FailRows(old(db.Rows()), j, now) && db.jobs.Keys == old(db.jobs.Keys)
    {
      db.jobs := db.jobs[j := db.jobs[j].(status := Failed, nextAttempt := now + Backoff(db.jobs[j].attempts))];
    }

    /** `process` up to its await: whether a call is now in flight. */
    method Process(j: Id, force: bool, c: Id, renders: bool, now: Time) returns (waiting: bool)
      requires Valid() && c !in agent.flights && c !in agent.orphans
      modifies db`jobs, agent
      ensures Valid() && State() == Next(old(State()), Claim(j, force, c, renders, now))
      ensures waiting <==> c in agent.flights
    {
      ghost var before := State();
      ClaimEnds(before, j, force, c, renders, now);
      waiting := Attempt(j, force, c, renders, now);
    }

    method Attempt(j: Id, force: bool, c: Id, renders: bool, now: Time) returns (waiting: bool)
      requires Wired() && c !in agent.flights && c !in agent.orphans
      modifies db`jobs, agent
      ensures State() == ClaimStep(old(State()), j, force, c, renders, now) && db.jobs.Keys == old(db.jobs.Keys)
      ensures waiting <==> c in agent.flights
    {
      if j !in db.jobs || db.jobs[j].status == Completed || db.jobs[j].status == Running { return false; }
      if !force && db.jobs[j].nextAttempt > now { return false; }
      db.jobs := db.jobs[j := db.jobs[j].(status := Running, attempts := db.jobs[j].attempts + 1)];
      waiting := engines.Request(j, db.jobs[j].kind, db.jobs[j].device, c, renders);
      if !waiting {
        Fail(j, now);
      }
    }

    /** `process` after its await: the agent confirmed the call, which always commits, or it failed. */
    method Resume(c: Id, confirmed: bool, now: Time) returns (completed: bool)
      requires Valid() && c in agent.flights && (confirmed ==> agent.flights[c].installed)
      modifies db, agent
      ensures Valid() && State() == if confirmed then SucceedStep(old(State()), c, now) else FailStep(old(State()), c, now)
      ensures completed == confirmed
    {
      FlightsCommit(State(), c, now);
      EndKeeps(State(), c, confirmed, now);
      Settle(c, confirmed, now);
      completed := confirmed;
    }

    method Settle(c: Id, confirmed: bool, now: Time)
      requires c in agent.flights && (confirmed ==> agent.flights[c].installed) && agent.flights[c].job in db.jobs
      requires CommitRows(db.Rows(), agent.flights[c].job, now).Some?
      modifies db, agent
      ensures State() == if confirmed then SucceedStep(old(State()), c, now) else FailStep(old(State()), c, now)
      ensures db.created == old(db.created) && db.jobs.Keys == old(db.jobs.Keys)
    {
      var call := agent.flights[c];
      agent.flights := agent.flights - {c};
      if confirmed {
        var ok := Complete(call.job, now);
      } else {
        agent.orphans := agent.orphans[c := call];
        Fail(call.job, now);
      }
    }

    /** `completeActivation` and `completeRevocation`; nothing is written when they throw. */
    method Complete(j: Id, now: Time) returns (ok: bool)
      requires j in db.jobs
      modifies db
      ensures ok == CommitRows(old(db.Rows()), j, now).Some?
      ensures db.Rows() == if ok then CommitRows(old(db.Rows()), j, now).value else old(db.Rows())
      ensures db.created == old(db.created) && db.jobs.Keys == old(db.jobs.Keys)
    {
      var job := db.jobs[j];
      if job.device !in db.devices { return false; }
      if job.kind == Activate {
        if job.invitation.None? || job.invitation.value !in db.invitations { return false; }
        db.devices := db.devices[job.device := Device(Active, Some(job.device))];
        db.invitations := db.invitations[job.invitation.value := db.invitations[job.invitation.value].(status := Redeemed)];
      } else {
        RevokeRowsOf(job.device);
      }
      db.jobs := db.jobs[j := db.jobs[j].(status := Completed, nextAttempt := now)];
      return true;
    }

    /** `drain` up to its first await: the oldest due jobs up to the limit, unless another drain is under way. */
    method BeginDrain(now: Time, limit: nat) returns (batch: seq<Id>)
      requires Valid()
      modifies this`draining
      ensures draining && (old(draining) ==> batch == [])
      ensures |batch| <= limit && forall a, b :: 0 <= a < b < |batch| ==> batch[a] != batch[b]
      ensures forall j :: j in batch ==> Claimable(db.Rows(), j, false, now)
      ensures forall a, b :: 0 <= a < b < |batch| ==> At(db.created, batch[a]) <= At(db.created, batch[b])
      ensures !old(draining) && |batch| < limit ==> forall j :: Claimable(db.Rows(), j, false, now) ==> j in batch
      ensures !old(draining) ==> forall j, k | j in batch && k !in batch && Claimable(db.Rows(), k, false, now) ::
                At(db.created, j) <= At(db.created, k)
    {
      if draining { return []; }
      draining := true;
      var due := set j | j in db.jobs && Claimable(db.Rows(), j, false, now);
      batch := TakeOldest(due, db.created, limit);
    }

    method EndDrain()
      modifies this`draining
      ensures !draining
    {
      draining := false;
    }

    /** The panel dies: nobody awaits the calls any more, the agent still has them. */
    method Die()
      requires Valid()
      modifies agent
      ensures Valid() && State() == Next(old(State()), Crash)
    {
      NextKeeps(State(), Crash);
      agent.orphans := agent.orphans + agent.flights;
      agent.flights := map[];
    }
  }

  /** A call in flight has a job whose commit goes through. */
  lemma FlightsCommit(w: World, c: Id, now: Time)
    requires Inv(w) && c in w.flights
    ensures w.flights[c].job in w.db.jobs && CommitRows(w.db, w.flights[c].job, now).Some?
  {
    assert CallOk(w.db.jobs, w.flights[c]);
    CommitKeeps(w.db, w.flights[c].job, now);
  }

  lemma ClaimIs(w: World, j: Id, force: bool, c: Id, renders: bool, now: Time)
    ensures Next(w, Claim(j, force, c, renders, now)) == ClaimStep(w, j, force, c, renders, now)
  {
  }

  lemma ClaimEnds(w: World, j: Id, force: bool, c: Id, renders: bool, now: Time)
    requires Inv(w)
    ensures Inv(ClaimStep(w, j, force, c, renders, now))
    ensures Next(w, Claim(j, force, c, renders, now)) == ClaimStep(w, j, force, c, renders, now)
  {
    ClaimIs(w, j, force, c, renders, now);
    NextKeeps(w, Claim(j, force, c, renders, now));
  }

  lemma EndKeeps(w: World, c: Id, confirmed: bool, now: Time)
    requires Inv(w)
    ensures Inv(if confirmed then SucceedStep(w, c, now) else FailStep(w, c, now))
  {
    if confirmed {
      SucceedKeeps(w, c, now);
    } else {
      FailKeeps(w, c, now);
    }
  }

  lemma RecoverIs(w: World, now: Time)
    requires w.flights == map[]
    ensures Next(w, Recover(now)) == w.(db := RecoverRows(w.db, now))
  {
  }

  lemma RecoverKeeps(w: World, now: Time)
    requires Inv(w) && w.flights == map[]
    ensures Inv(w.(db := RecoverRows(w.db, now))) && Next(w, Recover(now)) == w.(db := RecoverRows(w.db, now))
  {
    RecoverIs(w, now);
    NextKeeps(w, Recover(now));
  }
}
