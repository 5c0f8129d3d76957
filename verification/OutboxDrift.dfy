/**
  When the installed config lets in exactly the active devices, over all runs. Each engine call
  renders the user set as it finds it, and the agent installs the last one rendered. So all that
  counts is the last claim that was sent, and what has been confirmed since.
*/
module OutboxDrift {
  import opened Common
  import opened OutboxModel
  import opened OutboxSafety
  import opened OutboxRuns

  /** What a confirmed call does to the active devices, and a claim to the set it renders. */
  function Effect(users: set<Id>, kind: Kind, d: Id): set<Id> {
    if kind == Activate then users + {d} else users - {d}
  }

  datatype Change = Change(kind: Kind, device: Id)

  /** The last claim that was sent: its job and call, what they are for, and the devices it found active. */
  datatype Sent = Sent(job: Id, call: Id, change: Change, base: set<Id>)

  /** What to remember of a run: the last claim sent, and the confirmations since, in order. */
  datatype Trace = Trace(last: Option<Sent>, done: seq<Change>)

  const UNSENT := Trace(None, [])

  /** The active devices after the confirmations. */
  function Fold(users: set<Id>, done: seq<Change>): set<Id> {
    if done == [] then users
    else Effect(Fold(users, done[..|done| - 1]), done[|done| - 1].kind, done[|done| - 1].device)
  }

  /** What was confirmed last for the device. */
  function LastOn(done: seq<Change>, d: Id): Option<Kind> {
    if done == [] then None
    else if done[|done| - 1].device == d then Some(done[|done| - 1].kind)
    else LastOn(done[..|done| - 1], d)
  }

  function ChangeOf(call: Call): Change {
    Change(call.kind, call.device)
  }

  // ---------- the trace of a run ----------

  predicate Sends(w: World, e: Event) {
    e.Claim? && e.call !in w.flights && e.call in ClaimStep(w, e.job, e.force, e.call, e.renders, e.now).flights
  }

  predicate Confirms(w: World, e: Event) {
    e.Succeeds? && e.call in w.flights && w.flights[e.call].installed && w.flights[e.call].job in w.db.jobs
  }

  function SentBy(w: World, j: Id, c: Id): Sent
    requires j in w.db.jobs
  {
    Sent(j, c, Change(w.db.jobs[j].kind, w.db.jobs[j].device), ActiveDevices(w.db))
  }

  function After(w: World, e: Event, t: Trace): Trace {
    if Sends(w, e) then Trace(Some(SentBy(w, e.job, e.call)), [])
    else if Confirms(w, e) then t.(done := t.done + [ChangeOf(w.flights[e.call])])
    else t
  }

  ghost function TraceOf(w: World, events: seq<Event>, t: Trace): Trace
    decreases |events|
  {
    if events == [] then t else TraceOf(Next(w, events[0]), events[1..], After(w, events[0], t))
  }

  // ---------- what a trace says of the state ----------

  predicate JobOf(db: Db, s: Sent) {
    s.job in db.jobs && db.jobs[s.job].kind == s.change.kind && db.jobs[s.job].device == s.change.device
  }

  /** The job's call in flight, if any, is the one that was sent; once it has installed, the last rendered set is installed. */
  predicate OwnCall(w: World, s: Sent) {
    forall c :: c in w.flights && w.flights[c].job == s.job ==>
      c == s.call && (w.flights[c].installed ==> w.installed == w.rendered)
  }

  predicate Done(w: World, s: Sent, done: seq<Change>)
    requires s.job in w.db.jobs
  {
    !Open(w.db.jobs[s.job]) ==> w.installed == w.rendered && s.change in done
  }

  predicate Follows(w: World, t: Trace) {
    match t.last
    case None => w.rendered == {} && w.installed == {} && ActiveDevices(w.db) == {} && w.flights == map[] && w.orphans == map[]
    case Some(s) =>
      && JobOf(w.db, s) && OwnCall(w, s) && Done(w, s, t.done)
      && w.rendered == Effect(s.base, s.change.kind, s.change.device)
      && ActiveDevices(w.db) == Fold(s.base, t.done)
  }

  lemma FoldMore(users: set<Id>, done: seq<Change>, x: Change)
    ensures Fold(users, done + [x]) == Effect(Fold(users, done), x.kind, x.device)
  {
    assert (done + [x])[..|done|] == done;
  }

  lemma RenderIsEffect(db: Db, kind: Kind, d: Id)
    requires d in db.devices
    ensures RecoverySet(db, kind, d) == Effect(ActiveDevices(db), kind, d)
  {
  }

  lemma CommitIsEffect(db: Db, j: Id, now: Time)
    requires j in db.jobs && CommitRows(db, j, now).Some?
    ensures ActiveDevices(CommitRows(db, j, now).value) == Effect(ActiveDevices(db), db.jobs[j].kind, db.jobs[j].device)
  {
  }

  // ---------- the steps ----------

  /** Jobs keep what they are for and whether they are open. */
  predicate JobsStay(a: Jobs, b: Jobs) {
    forall j :: j in a ==> j in b && b[j].kind == a[j].kind && b[j].device == a[j].device && (Open(b[j]) <==> Open(a[j]))
  }

  /** A step of the tables that leaves the active devices and the jobs' openness as they are. */
  lemma TablesFollow(w: World, db': Db, t: Trace)
    requires Follows(w, t) && ActiveDevices(db') == ActiveDevices(w.db) && JobsStay(w.db.jobs, db'.jobs)
    ensures Follows(w.(db := db'), t)
  {
  }

  predicate OfRows(e: Event) {
    e.CreateDevice? || e.CreateInvitation? || e.InvitationCrash? || e.Prepare? || e.RequestRevoke? || e.Recover?
  }

  lemma RowsKeepJobs(w: World, e: Event)
    requires OfRows(e)
    ensures Next(w, e) == w.(db := Next(w, e).db) && JobsStay(w.db.jobs, Next(w, e).db.jobs)
  {
  }

  lemma RowsKeepActive(w: World, e: Event)
    requires OfRows(e)
    ensures ActiveDevices(Next(w, e).db) == ActiveDevices(w.db)
  {
  }

  lemma RowsFollow(w: World, e: Event, t: Trace)
    requires Follows(w, t) && OfRows(e)
    ensures Follows(Next(w, e), t)
  {
    RowsKeepJobs(w, e);
    RowsKeepActive(w, e);
    TablesFollow(w, Next(w, e).db, t);
  }

  lemma InstallFollows(w: World, c: Id, t: Trace)
    requires Follows(w, t)
    ensures Follows(InstallStep(w, c), t)
  {
  }

  lemma EndFollows(w: World, e: Event, t: Trace)
    requires Follows(w, t) && (e.AgentEnds? || e.Crash?)
    ensures Follows(Next(w, e), t)
  {
  }

  lemma FailFollows(w: World, c: Id, now: Time, t: Trace)
    requires FlightsOk(w.db.jobs, w.flights) && Follows(w, t)
    ensures Follows(FailStep(w, c, now), t)
  {
    if c in w.flights && w.flights[c].job in w.db.jobs {
      assert CallOk(w.db.jobs, w.flights[c]);
      TablesFollow(w, FailRows(w.db, w.flights[c].job, now), t);
    }
  }

  /** What a claim leaves behind when it is sent. */
  lemma ClaimSends(w: World, j: Id, force: bool, c: Id, renders: bool, now: Time)
    requires c !in w.flights && c in ClaimStep(w, j, force, c, renders, now).flights
    ensures Claimable(w.db, j, force, now)
    ensures var job := w.db.jobs[j];
            ClaimStep(w, j, force, c, renders, now)
              == World(ClaimRows(w.db, j), RecoverySet(ClaimRows(w.db, j), job.kind, job.device), w.installed,
                       w.flights[c := Call(j, job.device, job.kind, false)], w.orphans)
  {
  }

  lemma ClaimIdles(w: World, j: Id, force: bool, c: Id, renders: bool, now: Time)
    requires !Sends(w, Claim(j, force, c, renders, now))
    ensures var after := ClaimStep(w, j, force, c, renders, now);
            after == w.(db := after.db) && ActiveDevices(after.db) == ActiveDevices(w.db) && JobsStay(w.db.jobs, after.db.jobs)
  {
  }

  /** Whatever the trace was, it starts anew with a claim that is sent. */
  lemma SentFollows(w: World, j: Id, force: bool, c: Id, renders: bool, now: Time)
    requires FlightsOk(w.db.jobs, w.flights) && Sends(w, Claim(j, force, c, renders, now))
    requires j in w.db.jobs ==> w.db.jobs[j].device in w.db.devices
    ensures j in w.db.jobs && Follows(ClaimStep(w, j, force, c, renders, now), Trace(Some(SentBy(w, j, c)), []))
  {
    ClaimSends(w, j, force, c, renders, now);
    var db, job := ClaimRows(w.db, j), w.db.jobs[j];
    assert ActiveDevices(db) == ActiveDevices(w.db);
    RenderIsEffect(db, job.kind, job.device);
    forall k | k in w.flights ensures w.flights[k].job != j {
      assert CallOk(w.db.jobs, w.flights[k]);
    }
  }

  lemma ClaimFollows(w: World, j: Id, force: bool, c: Id, renders: bool, now: Time, t: Trace)
    requires Inv(w) && Follows(w, t)
    ensures Follows(ClaimStep(w, j, force, c, renders, now), After(w, Claim(j, force, c, renders, now), t))
  {
    if Sends(w, Claim(j, force, c, renders, now)) {
      assert j in w.db.jobs ==> JobOk(w.db.devices, w.db.invitations, w.db.jobs[j]);
      SentFollows(w, j, force, c, renders, now);
    } else {
      ClaimIdles(w, j, force, c, renders, now);
      TablesFollow(w, ClaimStep(w, j, force, c, renders, now).db, t);
    }
  }

  /** What a confirmation leaves behind. */
  lemma SucceedIs(w: World, c: Id, now: Time)
    requires Tables(w.db) && Confirms(w, Succeeds(c, now)) && CallOk(w.db.jobs, w.flights[c])
    ensures var call, after := w.flights[c], SucceedStep(w, c, now);
            && ActiveDevices(after.db) == Effect(ActiveDevices(w.db), call.kind, call.device)
            && after == World(after.db, w.rendered, w.installed, w.flights - {c}, w.orphans)
            && call.job in after.db.jobs
            && after.db.jobs == w.db.jobs[call.job := after.db.jobs[call.job]]
            && after.db.jobs[call.job] == w.db.jobs[call.job].(status := Completed, nextAttempt := now)
  {
    CommitKeeps(w.db, w.flights[c].job, now);
    CommitIsEffect(w.db, w.flights[c].job, now);
  }

  lemma SucceedIdles(w: World, c: Id, now: Time)
    requires !Confirms(w, Succeeds(c, now))
    ensures SucceedStep(w, c, now) == w
  {
  }

  lemma ConfirmFollows(w: World, c: Id, after: World, now: Time, t: Trace)
    requires Follows(w, t) && c in w.flights && w.flights[c].installed && CallOk(w.db.jobs, w.flights[c])
    requires var call := w.flights[c];
             && ActiveDevices(after.db) == Effect(ActiveDevices(w.db), call.kind, call.device)
             && after == World(after.db, w.rendered, w.installed, w.flights - {c}, w.orphans)
             && after.db.jobs == w.db.jobs[call.job := w.db.jobs[call.job].(status := Completed, nextAttempt := now)]
    ensures Follows(after, t.(done := t.done + [ChangeOf(w.flights[c])]))
  {
    var x := ChangeOf(w.flights[c]);
    FoldMore(t.last.value.base, t.done, x);
    assert forall y :: y in t.done || y == x ==> y in t.done + [x];
  }

  lemma SucceedFollows(w: World, c: Id, now: Time, t: Trace)
    requires Inv(w) && Follows(w, t)
    ensures Follows(SucceedStep(w, c, now), After(w, Succeeds(c, now), t))
  {
    if Confirms(w, Succeeds(c, now)) {
      assert CallOk(w.db.jobs, w.flights[c]);
      SucceedIs(w, c, now);
      ConfirmFollows(w, c, SucceedStep(w, c, now), now, t);
    } else {
      SucceedIdles(w, c, now);
    }
  }

  /** The steps that the trace does not remember. */
  lemma OthersFollow(w: World, e: Event, t: Trace)
    requires FlightsOk(w.db.jobs, w.flights) && Follows(w, t) && !e.Claim? && !e.Succeeds?
    ensures Follows(Next(w, e), t)
  {
    if e.Fails? {
      FailFollows(w, e.call, e.now, t);
    } else if e.AgentInstalls? {
      InstallFollows(w, e.call, t);
    } else if e.AgentEnds? || e.Crash? {
      EndFollows(w, e, t);
    } else {
      RowsFollow(w, e, t);
    }
  }

  lemma NextFollows(w: World, e: Event, t: Trace)
    requires Inv(w) && Follows(w, t)
    ensures Follows(Next(w, e), After(w, e, t))
  {
    if e.Claim? {
      ClaimFollows(w, e.job, e.force, e.call, e.renders, e.now, t);
    } else if e.Succeeds? {
      SucceedFollows(w, e.call, e.now, t);
    } else {
      OthersFollow(w, e, t);
    }
  }

  lemma {:induction false} RunFollows(w: World, events: seq<Event>, t: Trace)
    requires Inv(w) && Follows(w, t)
    ensures Inv(Run(w, events)) && Follows(Run(w, events), TraceOf(w, events, t))
    decreases |events|
  {
    if events != [] {
      NextFollows(w, events[0], t);
      NextKeeps(w, events[0]);
      RunFollows(Next(w, events[0]), events[1..], After(w, events[0], t));
    }
  }

  // ---------- when the confirmations net out ----------

  /**
    The last confirmation on the last claim's own device is of its kind, and every other device
    ends as that claim found it.
  */
  predicate NetsOut(t: Trace) {
    t.last.None? ||
      var s := t.last.value;
      && LastOn(t.done, s.change.device) == Some(s.change.kind)
      && forall x :: x in t.done && x.device != s.change.device ==> (LastOn(t.done, x.device) == Some(Activate) <==> x.device in s.base)
  }

  lemma {:induction false} FoldHas(users: set<Id>, done: seq<Change>, d: Id)
    ensures d in Fold(users, done) <==> if LastOn(done, d).None? then d in users else LastOn(done, d).value == Activate
  {
    if done != [] { FoldHas(users, done[..|done| - 1], d); }
  }

  lemma {:induction false} LastOnSome(done: seq<Change>, d: Id)
    ensures LastOn(done, d).Some? <==> exists x :: x in done && x.device == d
    ensures LastOn(done, d).Some? ==> Change(LastOn(done, d).value, d) in done
  {
    if done != [] {
      LastOnSome(done[..|done| - 1], d);
      assert done == done[..|done| - 1] + [done[|done| - 1]];
    }
  }

  lemma NetsOutIff(s: Sent, done: seq<Change>)
    requires s.change in done
    ensures Effect(s.base, s.change.kind, s.change.device) == Fold(s.base, done) <==> NetsOut(Trace(Some(s), done))
  {
    var installed, active := Effect(s.base, s.change.kind, s.change.device), Fold(s.base, done);
    LastOnSome(done, s.change.device);
    forall d ensures (d in installed <==> d in active) <==> EndsAsSent(s, done, d) {
      FoldHas(s.base, done, d);
    }
    if NetsOut(Trace(Some(s), done)) {
      forall d ensures EndsAsSent(s, done, d) { LastOnSome(done, d); }
    } else if installed == active {
      forall x | x in done ensures EndsAsSent(s, done, x.device) && LastOn(done, x.device).Some? { LastOnSome(done, x.device); }
    }
  }

  /** The device ends as the claim rendered it. */
  predicate EndsAsSent(s: Sent, done: seq<Change>, d: Id) {
    (if d == s.change.device then s.change.kind == Activate else d in s.base)
      <==> if LastOn(done, d).None? then d in s.base else LastOn(done, d).value == Activate
  }

  lemma StartFollows()
    ensures Inv(START) && Follows(START, UNSENT)
  {
    ReachableInv([]);
  }

  predicate Agrees(w: World) {
    w.installed == ActiveDevices(w.db)
  }

  predicate NoOpenJob(db: Db) {
    forall j :: j in db.jobs ==> !Open(db.jobs[j])
  }

  /**
    Over all runs, under any overlap, failure, crash and retry: when no job is open, the installed
    config lets in exactly the active devices if and only if the confirmations since the last claim
    that was sent net out.
  */
  lemma InstalledIsActiveIff(events: seq<Event>)
    requires NoOpenJob(Run(START, events).db)
    ensures Agrees(Run(START, events)) <==> NetsOut(TraceOf(START, events, UNSENT))
  {
    StartFollows();
    RunFollows(START, events, UNSENT);
    var t := TraceOf(START, events, UNSENT);
    if t.last.Some? { NetsOutIff(t.last.value, t.done); }
  }
}
