/** The outbox over whole runs: any sequence of steps from the empty panel, however interleaved. */
module OutboxRuns {
  import opened OutboxModel
  import opened OutboxSafety

  lemma ReachableInv(events: seq<Event>)
    ensures Inv(Run(START, events))
  {
    RunKeeps(START, events);
  }

  // ---------- invitations, sessions and activations ----------

  lemma OnePendingInvitation(events: seq<Event>, i: Id, k: Id)
    requires var invitations := Run(START, events).db.invitations;
             i in invitations && k in invitations && BothPending(invitations[i], invitations[k])
    ensures i == k
  {
    ReachableInv(events);
  }

  /** A pending invitation, like a superseded one, has neither session nor job. */
  lemma PendingIsUnclaimed(events: seq<Event>, i: Id)
    requires i in Run(START, events).db.invitations
    requires var status := Run(START, events).db.invitations[i].status; status.Pending? || status.Superseded?
    ensures var db := Run(START, events).db;
            && (forall s :: s in db.sessions ==> db.sessions[s].invitation != i)
            && (forall j :: j in db.jobs ==> !Serves(db.jobs[j], i))
  {
    ReachableInv(events);
    var db := Run(START, events).db;
    forall s | s in db.sessions ensures db.sessions[s].invitation != i {
      assert SessionOk(db.invitations, db.sessions[s]);
    }
    forall j | j in db.jobs ensures !Serves(db.jobs[j], i) {
      assert JobOk(db.devices, db.invitations, db.jobs[j]);
    }
  }

  /** A redeeming invitation has exactly one session and exactly one activation job, which is open. */
  lemma RedeemingIsServed(events: seq<Event>, i: Id) returns (s: Id, j: Id)
    requires i in Run(START, events).db.invitations && Run(START, events).db.invitations[i].status == Redeeming
    ensures var db := Run(START, events).db;
            && s in db.sessions && db.sessions[s].invitation == i
            && (forall t :: t in db.sessions && db.sessions[t].invitation == i ==> t == s)
            && j in db.jobs && Serves(db.jobs[j], i) && Open(db.jobs[j])
            && (forall k :: k in db.jobs && Serves(db.jobs[k], i) ==> k == j)
  {
    ReachableInv(events);
    var db := Run(START, events).db;
    s :| s in db.sessions && db.sessions[s].invitation == i;
    j :| j in db.jobs && Serves(db.jobs[j], i) && Open(db.jobs[j]);
    forall t | t in db.sessions && db.sessions[t].invitation == i ensures t == s {
      assert SessionOk(db.invitations, db.sessions[t]) && SessionOk(db.invitations, db.sessions[s]);
    }
    forall k | k in db.jobs && Serves(db.jobs[k], i) ensures k == j {
      if k != j { assert SameActivation(db.jobs[j], db.jobs[k]); }
    }
  }

  lemma OneActivationPerInvitation(events: seq<Event>, i: Id, j: Id, k: Id)
    requires var jobs := Run(START, events).db.jobs; j in jobs && k in jobs && Serves(jobs[j], i) && Serves(jobs[k], i)
    ensures j == k
  {
    ReachableInv(events);
  }

  /** Redeeming a link whose activation already exists, in whatever state, creates and changes nothing. */
  lemma RedeemingAgainCreatesNothing(events: seq<Event>, i: Id, j: Id, s': Id, j': Id, now: Time, expires: Time)
    requires var jobs := Run(START, events).db.jobs; j in jobs && Serves(jobs[j], i)
    ensures var db := Run(START, events).db; PrepareRows(db, i, s', j', now, expires) == db
  {
    ReachableInv(events);
    var db := Run(START, events).db;
    assert JobOk(db.devices, db.invitations, db.jobs[j]);
  }

  /** Whenever redeeming gets as far as inserting the session, its derived token is free. */
  lemma DerivedTokenNeverCollides(events: seq<Event>, i: Id)
    requires var db := Run(START, events).db;
             i in db.invitations && Redeemable(db.invitations[i].status) && !HasOpen(db, db.invitations[i].device, Activate)
    ensures !TokenTaken(Run(START, events).db, i)
  {
    ReachableInv(events);
    PrepareFindsFresh(Run(START, events).db, i);
  }

  // ---------- jobs and calls ----------

  lemma OneOpenJob(events: seq<Event>, j: Id, k: Id)
    requires var jobs := Run(START, events).db.jobs; j in jobs && k in jobs && Rivals(jobs[j], jobs[k])
    ensures j == k
  {
    ReachableInv(events);
  }

  /** At most one engine call is in flight for a job, and then the job is running. */
  lemma OneFlightPerJob(events: seq<Event>, c: Id, k: Id)
    requires var flights := Run(START, events).flights; c in flights && k in flights && flights[c].job == flights[k].job
    ensures c == k
    ensures var w := Run(START, events); w.flights[c].job in w.db.jobs && w.db.jobs[w.flights[c].job].status == Running
  {
    ReachableInv(events);
    assert CallOk(Run(START, events).db.jobs, Run(START, events).flights[c]);
  }

  lemma ActiveIsEarned(events: seq<Event>, d: Id)
    requires var devices := Run(START, events).db.devices; d in devices && devices[d].status == Active
    ensures Earned(Run(START, events).db.jobs, d)
  {
    ReachableInv(events);
  }

  /** What installation answers opens exactly the device it was answered for. */
  lemma SubscriptionOpensItsDevice(events: seq<Event>, token: Id, now: Time)
    requires Redeem(Run(START, events).db, token, now).Installed?
    ensures var db := Run(START, events).db; var r := Redeem(db, token, now);
            BySubscription(db, r.subscription) == {r.device} && token in db.invitations
            && db.invitations[token].device == r.device && db.invitations[token].status == Redeemed
  {
    ReachableInv(events);
    var db := Run(START, events).db;
    var r := Redeem(db, token, now);
    var s :| SessionOf(db, token, s) && r.device == db.sessions[s].device;
    assert SessionOk(db.invitations, db.sessions[s]);
    var j :| ActivationOf(db, db.sessions[s].invitation, j) && db.jobs[j].status == Completed;
    assert JobOk(db.devices, db.invitations, db.jobs[j]);
    assert r.device in BySubscription(db, r.subscription);
  }

  // ---------- completed is final ----------

  predicate Claims(w: World, e: Event, j: Id) {
    e.Claim? && e.job == j && Claimable(w.db, j, e.force, e.now) && e.call !in w.flights && e.call !in w.orphans
  }

  lemma EndingLeavesIdleJobs(w: World, c: Id, now: Time, j: Id)
    requires FlightsOk(w.db.jobs, w.flights) && j in w.db.jobs && w.db.jobs[j].status != Running
    ensures j in SucceedStep(w, c, now).db.jobs && SucceedStep(w, c, now).db.jobs[j] == w.db.jobs[j]
    ensures j in FailStep(w, c, now).db.jobs && FailStep(w, c, now).db.jobs[j] == w.db.jobs[j]
  {
    if c in w.flights {
      assert CallOk(w.db.jobs, w.flights[c]);
    }
  }

  lemma ClaimLeavesOthers(w: World, j: Id, force: bool, c: Id, renders: bool, now: Time, k: Id)
    requires k in w.db.jobs && !Claims(w, Claim(j, force, c, renders, now), k)
    ensures k in ClaimStep(w, j, force, c, renders, now).db.jobs && ClaimStep(w, j, force, c, renders, now).db.jobs[k] == w.db.jobs[k]
  {
  }

  /** A job that is not running changes only when it is claimed. */
  lemma IdleJobStays(w: World, e: Event, j: Id)
    requires FlightsOk(w.db.jobs, w.flights) && j in w.db.jobs && w.db.jobs[j].status != Running && !Claims(w, e, j)
    ensures j in Next(w, e).db.jobs && Next(w, e).db.jobs[j] == w.db.jobs[j]
  {
    match e
    case Succeeds(c, now) => EndingLeavesIdleJobs(w, c, now, j);
    case Fails(c, now) => EndingLeavesIdleJobs(w, c, now, j);
    case Claim(k, force, c, renders, now) => ClaimLeavesOthers(w, k, force, c, renders, now, j);
    case _ =>
  }

  lemma {:induction false} CompletedIsFinal(w: World, events: seq<Event>, j: Id)
    requires Inv(w) && j in w.db.jobs && w.db.jobs[j].status == Completed
    ensures j in Run(w, events).db.jobs && Run(w, events).db.jobs[j] == w.db.jobs[j]
    decreases |events|
  {
    if events != [] {
      NextKeeps(w, events[0]);
      IdleJobStays(w, events[0], j);
      CompletedIsFinal(Next(w, events[0]), events[1..], j);
    }
  }

  // ---------- attempts count the claims ----------

  ghost function ClaimCount(w: World, events: seq<Event>, j: Id): nat
    decreases |events|
  {
    if events == [] then 0
    else (if Claims(w, events[0], j) then 1 else 0) + ClaimCount(Next(w, events[0]), events[1..], j)
  }

  function Attempts(w: World, j: Id): nat {
    if j in w.db.jobs then w.db.jobs[j].attempts else 0
  }

  lemma NextCountsAttempts(w: World, e: Event, j: Id)
    ensures Attempts(Next(w, e), j) == Attempts(w, j) + (if Claims(w, e, j) then 1 else 0)
  {
  }

  lemma {:induction false} AttemptsFollowClaims(w: World, events: seq<Event>, j: Id)
    ensures Attempts(Run(w, events), j) == Attempts(w, j) + ClaimCount(w, events, j)
    decreases |events|
  {
    if events != [] {
      NextCountsAttempts(w, events[0], j);
      AttemptsFollowClaims(Next(w, events[0]), events[1..], j);
    }
  }

  /** In every run a job has been attempted exactly as often as it has been claimed. */
  lemma AttemptsAreClaims(events: seq<Event>, j: Id)
    ensures Attempts(Run(START, events), j) == ClaimCount(START, events, j)
  {
    AttemptsFollowClaims(START, events, j);
  }

  // ---------- the drain waits out the backoff ----------

  lemma {:induction false} BackoffGrows(m: nat, n: nat)
    requires m <= n
    ensures 5_000 <= Backoff(m) <= Backoff(n) <= 300_000
    ensures 1 <= n && 5 * Pow2(n - 1) <= 300 ==> Backoff(n) == 5_000 * Pow2(n - 1)
    decreases n
  {
    if n >= 2 {
      if m < n {
        BackoffGrows(m, n - 1);
      } else {
        BackoffGrows(n - 1, n - 1);
      }
    }
  }

  /** The step fails job `j` at time `t`: its call fails, or the claim cannot reach the agent. */
  ghost predicate FailsJob(w: World, e: Event, j: Id, t: Time) {
    || (e.Fails? && e.now == t && e.call in w.flights && w.flights[e.call].job == j && j in w.db.jobs)
    || (Claims(w, e, j) && e.now == t && e.call !in Next(w, e).flights)
  }

  ghost predicate Unclaimed(w: World, events: seq<Event>, j: Id)
    decreases |events|
  {
    events == [] || (!Claims(w, events[0], j) && Unclaimed(Next(w, events[0]), events[1..], j))
  }

  lemma FailureSetsRetry(w: World, e: Event, j: Id, t: Time)
    requires FailsJob(w, e, j, t)
    ensures var w' := Next(w, e);
            j in w'.db.jobs && w'.db.jobs[j].status == Failed && w'.db.jobs[j].nextAttempt == t + Backoff(Attempts(w', j))
  {
  }

  lemma {:induction false} RetryStands(w: World, events: seq<Event>, j: Id)
    requires Inv(w) && j in w.db.jobs && w.db.jobs[j].status == Failed && Unclaimed(w, events, j)
    ensures j in Run(w, events).db.jobs && Run(w, events).db.jobs[j] == w.db.jobs[j]
    decreases |events|
  {
    if events != [] {
      IdleJobStays(w, events[0], j);
      NextKeeps(w, events[0]);
      RetryStands(Next(w, events[0]), events[1..], j);
    }
  }

  lemma RunOne(w: World, e: Event)
    ensures Run(w, [e]) == Next(w, e)
  {
    assert [e][1..] == [];
  }

  lemma Extend(events: seq<Event>, w: World, e: Event, w': World) returns (more: seq<Event>)
    requires Run(START, events) == w && Next(w, e) == w'
    ensures Run(START, more) == w'
  {
    more := events + [e];
    RunSplits(START, events, [e]);
    RunOne(w, e);
  }

  lemma {:induction false} RunSplits(w: World, a: seq<Event>, b: seq<Event>)
    ensures Run(w, a + b) == Run(Run(w, a), b)
    decreases |a|
  {
    if a == [] {
      assert a + b == b;
    } else {
      assert (a + b)[0] == a[0] && (a + b)[1..] == a[1..] + b;
      RunSplits(Next(w, a[0]), a[1..], b);
    }
  }

  /**
    After a failure at time `t` on the n-th claim the next claim, if the drain makes it, comes no earlier than t + min(300, 5 * 2^(n-1)) seconds.
  */
  lemma DrainWaitsOutBackoff(before: seq<Event>, failure: Event, since: seq<Event>, claim: Event, j: Id, t: Time)
    requires FailsJob(Run(START, before), failure, j, t)
    requires Unclaimed(Next(Run(START, before), failure), since, j)
    requires var w := Run(START, before + [failure] + since); claim.Claim? && !claim.force && Claims(w, claim, j)
    ensures claim.now >= t + Backoff(ClaimCount(START, before + [failure], j))
  {
    var w := Run(START, before);
    var w' := Next(w, failure);
    RunSplits(START, before, [failure]);
    RunSplits(START, before + [failure], since);
    assert Run(w, [failure]) == w';
    ReachableInv(before + [failure]);
    FailureSetsRetry(w, failure, j, t);
    RetryStands(w', since, j);
    AttemptsAreClaims(before + [failure], j);
  }

  lemma RetryIsKnown(before: seq<Event>, failure: Event, since: seq<Event>, j: Id, t: Time)
    requires FailsJob(Run(START, before), failure, j, t)
    requires Unclaimed(Next(Run(START, before), failure), since, j)
    ensures var w := Run(START, before + [failure] + since);
            j in w.db.jobs && w.db.jobs[j].status == Failed
            && w.db.jobs[j].nextAttempt == t + Backoff(ClaimCount(START, before + [failure], j))
  {
    var w' := Next(Run(START, before), failure);
    RunSplits(START, before, [failure]);
    RunSplits(START, before + [failure], since);
    RunOne(Run(START, before), failure);
    ReachableInv(before + [failure]);
    FailureSetsRetry(Run(START, before), failure, j, t);
    RetryStands(w', since, j);
    AttemptsAreClaims(before + [failure], j);
  }

  /** The drain's claim is exact: after a failure at `t` on the n-th claim it takes effect from t plus the n-th backoff on, and not before. */
  lemma DrainRetriesIff(before: seq<Event>, failure: Event, since: seq<Event>, j: Id, t: Time, c: Id, renders: bool, now: Time)
    requires FailsJob(Run(START, before), failure, j, t)
    requires Unclaimed(Next(Run(START, before), failure), since, j)
    requires var w := Run(START, before + [failure] + since); c !in w.flights && c !in w.orphans
    ensures var w := Run(START, before + [failure] + since); var after := Next(w, Claim(j, false, c, renders, now));
            if now >= t + Backoff(ClaimCount(START, before + [failure], j)) then Attempts(after, j) == Attempts(w, j) + 1 else after == w
  {
    RetryIsKnown(before, failure, since, j, t);
    NextCountsAttempts(Run(START, before + [failure] + since), Claim(j, false, c, renders, now), j);
  }
}
