/**
  Privileged operations behind a two-step confirmation. The payload hash is modelled by the text
  that is hashed, which is what an injective hash amounts to.
*/
module Operations {
  import opened Common
  import opened StableJson

  type Time = int
  type Id = nat

  const VALID_FOR: Time := 612_000  // 0.17 hours, in milliseconds

  datatype Confirmation = Confirmation(action: Text, hash: Text, expires: Time, used: bool)
  datatype Operation = Operation(kind: Text, status: string)
  datatype Asked = Asked(action: Text, payload: Json, at: Time)
  datatype Start = Start(operation: Id, confirmation: Id, action: Text, payload: Json, at: Time)

  function PayloadHash(action: Text, payload: Json, le: Order): Text {
    action + [0] + Stable(payload, le)
  }

  /** The two tables, with what was previewed and which operations were started. */
  datatype State = State(
    confirmations: map<Id, Confirmation>,
    operations: map<Id, Operation>,
    previews: map<Id, Asked>,
    started: seq<Start>)

  const EMPTY := State(map[], map[], map[], [])

  /** `refusal` is the status the checks of the action and payload throw at that moment, 400, 404 or 409, or none. */
  datatype Request =
    | AskPreview(id: Id, action: Text, payload: Json, refusal: Option<nat>, now: Time)
    | AskConfirm(id: Id, action: Text, payload: Json, refusal: Option<nat>, operation: Id, now: Time)

  function Previewed(s: State, id: Id, action: Text, payload: Json, refusal: Option<nat>, now: Time, le: Order): State {
    if refusal.Some? || id in s.confirmations then s
    else s.(
      confirmations := s.confirmations[id := Confirmation(action, PayloadHash(action, payload, le), now + VALID_FOR, false)],
      previews := s.previews[id := Asked(action, payload, now)])
  }

  predicate Spendable(s: State, id: Id, action: Text, payload: Json, now: Time, le: Order) {
    && id in s.confirmations
    && var row := s.confirmations[id];
       !row.used && row.expires > now && row.action == action && row.hash == PayloadHash(action, payload, le)
  }

  function Confirmed(s: State, id: Id, action: Text, payload: Json, refusal: Option<nat>, operation: Id, now: Time, le: Order): State {
    if !Spendable(s, id, action, payload, now, le) || refusal.Some? || operation in s.operations then s
    else s.(
      confirmations := s.confirmations[id := s.confirmations[id].(used := true)],
      operations := s.operations[operation := Operation(action, "queued")],
      started := s.started + [Start(operation, id, action, payload, now)])
  }

  function Next(s: State, r: Request, le: Order): State {
    match r
    case AskPreview(id, action, payload, refusal, now) => Previewed(s, id, action, payload, refusal, now, le)
    case AskConfirm(id, action, payload, refusal, operation, now) => Confirmed(s, id, action, payload, refusal, operation, now, le)
  }

  function Run(s: State, rs: seq<Request>, le: Order): State
    decreases |rs|
  {
    if rs == [] then s else Run(Next(s, rs[0], le), rs[1..], le)
  }

  // ---------- the service ----------

  datatype Reply = Accepted | Rejected(status: nat)

  class OperationService {
    const le: Order
    var confirmations: map<Id, Confirmation>
    var operations: map<Id, Operation>
    ghost var previews: map<Id, Asked>
    var started: seq<Start>

    ghost function Current(): State
      reads this
    {
      State(confirmations, operations, previews, started)
    }

    constructor (le: Order)
      ensures Current() == EMPTY && this.le == le
    {
      this.le := le;
      confirmations, operations, previews, started := map[], map[], map[], [];
    }

    method Preview(id: Id, action: Text, payload: Json, refusal: Option<nat>, now: Time) returns (reply: Reply)
      requires id !in confirmations
      modifies this
      ensures Current() == old(Next(Current(), AskPreview(id, action, payload, refusal, now), le))
      ensures reply == if refusal.Some? then Rejected(refusal.value) else Accepted
    {
      if refusal.Some? { return Rejected(refusal.value); }
      confirmations := confirmations[id := Confirmation(action, PayloadHash(action, payload, le), now + VALID_FOR, false)];
      previews := previews[id := Asked(action, payload, now)];
      return Accepted;
    }

    method Confirm(id: Id, action: Text, payload: Json, refusal: Option<nat>, operation: Id, now: Time) returns (reply: Reply)
      requires operation !in operations
      modifies this
      ensures Current() == old(Next(Current(), AskConfirm(id, action, payload, refusal, operation, now), le))
      ensures reply == if !old(Spendable(Current(), id, action, payload, now, le)) then Rejected(409)
                       else if refusal.Some? then Rejected(refusal.value) else Accepted
    {
      if id !in confirmations { return Rejected(409); }
      var row := confirmations[id];
      if row.used || row.expires <= now || row.action != action || row.hash != PayloadHash(action, payload, le) {
        return Rejected(409);
      }
      if refusal.Some? { return Rejected(refusal.value); }
      confirmations := confirmations[id := row.(used := true)];
      operations := operations[operation := Operation(action, "queued")];
      started := started + [Start(operation, id, action, payload, now)];
      return Accepted;
    }
  }

  // ---------- what a confirmation can be spent on ----------

  ghost predicate PayloadsWf(rs: seq<Request>) {
    forall i :: 0 <= i < |rs| ==> Wf(rs[i].payload)
  }

  ghost predicate StartOk(s: State, x: Start) {
    && x.confirmation in s.confirmations && s.confirmations[x.confirmation].used
    && x.confirmation in s.previews
    && var p := s.previews[x.confirmation];
       x.action == p.action && Same(x.payload, p.payload) && x.at < p.at + VALID_FOR
  }

  predicate RowOk(c: Confirmation, p: Asked, le: Order) {
    c.action == p.action && c.hash == PayloadHash(p.action, p.payload, le) && c.expires == p.at + VALID_FOR
  }

  ghost predicate RowsOk(s: State, le: Order) {
    && s.previews.Keys == s.confirmations.Keys
    && (forall id :: id in s.confirmations ==> RowOk(s.confirmations[id], s.previews[id], le) && Wf(s.previews[id].payload))
  }

  predicate Queued(s: State, x: Start) {
    x.operation in s.operations && s.operations[x.operation] == Operation(x.action, "queued")
  }

  ghost predicate StartsOk(s: State) {
    && (forall i :: 0 <= i < |s.started| ==> StartOk(s, s.started[i]) && Queued(s, s.started[i]))
    && (forall i, j :: 0 <= i < j < |s.started| ==>
          s.started[i].confirmation != s.started[j].confirmation && s.started[i].operation != s.started[j].operation)
  }

  ghost predicate Inv(s: State, le: Order) {
    RowsOk(s, le) && StartsOk(s)
  }

  lemma HashDetermines(action: Text, v: Json, w: Json, le: Order)
    requires Wf(v) && Wf(w) && PayloadHash(action, v, le) == PayloadHash(action, w, le)
    ensures Same(v, w)
  {
    Cancel(action + [0], action + [0], Stable(v, le), Stable(w, le));
    TextDetermines(v, w, le);
  }

  lemma StartsStand(s: State, t: State)
    requires StartsOk(s) && t.started == s.started && (forall o :: o in s.operations ==> o in t.operations && t.operations[o] == s.operations[o])
    requires forall id :: id in s.confirmations && s.confirmations[id].used ==> id in t.confirmations && t.confirmations[id].used
    requires forall id :: id in s.previews ==> id in t.previews && t.previews[id] == s.previews[id]
    ensures StartsOk(t)
  {
  }

  lemma PreviewRows(s: State, id: Id, action: Text, payload: Json, refusal: Option<nat>, now: Time, le: Order)
    requires RowsOk(s, le) && Wf(payload)
    ensures RowsOk(Previewed(s, id, action, payload, refusal, now, le), le)
  {
  }

  lemma PreviewStarts(s: State, id: Id, action: Text, payload: Json, refusal: Option<nat>, now: Time, le: Order)
    requires s.previews.Keys == s.confirmations.Keys && StartsOk(s)
    ensures StartsOk(Previewed(s, id, action, payload, refusal, now, le))
  {
    StartsStand(s, Previewed(s, id, action, payload, refusal, now, le));
  }

  lemma PreviewKeeps(s: State, id: Id, action: Text, payload: Json, refusal: Option<nat>, now: Time, le: Order)
    requires Inv(s, le) && Wf(payload)
    ensures Inv(Previewed(s, id, action, payload, refusal, now, le), le)
  {
    PreviewRows(s, id, action, payload, refusal, now, le);
    PreviewStarts(s, id, action, payload, refusal, now, le);
  }

  lemma StartMore(s: State, x: Start)
    requires StartsOk(s) && StartOk(s, x) && Queued(s, x)
    requires forall i :: 0 <= i < |s.started| ==> s.started[i].confirmation != x.confirmation && s.started[i].operation != x.operation
    ensures StartsOk(s.(started := s.started + [x]))
  {
  }

  lemma ConfirmKeeps(s: State, id: Id, action: Text, payload: Json, refusal: Option<nat>, operation: Id, now: Time, le: Order)
    requires Inv(s, le) && Wf(payload)
    ensures Inv(Confirmed(s, id, action, payload, refusal, operation, now, le), le)
  {
    if Confirmed(s, id, action, payload, refusal, operation, now, le) != s {
      var spent := s.(
        confirmations := s.confirmations[id := s.confirmations[id].(used := true)],
        operations := s.operations[operation := Operation(action, "queued")]);
      StartsStand(s, spent);
      HashDetermines(action, payload, s.previews[id].payload, le);
      forall i | 0 <= i < |s.started| ensures s.started[i].confirmation != id {
        assert StartOk(s, s.started[i]);
      }
      StartMore(spent, Start(operation, id, action, payload, now));
    }
  }

  lemma NextKeeps(s: State, r: Request, le: Order)
    requires Inv(s, le) && Wf(r.payload)
    ensures Inv(Next(s, r, le), le)
  {
    match r
    case AskPreview(id, action, payload, refusal, now) => PreviewKeeps(s, id, action, payload, refusal, now, le);
    case AskConfirm(id, action, payload, refusal, operation, now) => ConfirmKeeps(s, id, action, payload, refusal, operation, now, le);
  }

  lemma {:induction false} RunKeeps(s: State, rs: seq<Request>, le: Order)
    requires Inv(s, le) && PayloadsWf(rs)
    ensures Inv(Run(s, rs, le), le)
    decreases |rs|
  {
    if rs != [] {
      NextKeeps(s, rs[0], le);
      RunKeeps(Next(s, rs[0], le), rs[1..], le);
    }
  }

  /**
    In every run, whatever the collation: an operation is started only by a confirmation previewed
    for the same action and, up to key order, the same payload, within its ten minutes; and no two
    operations are started by one confirmation.
  */
  lemma ConfirmationsSpentOnce(rs: seq<Request>, le: Order, i: nat, j: nat)
    requires PayloadsWf(rs)
    requires var started := Run(EMPTY, rs, le).started; i < |started| && j < |started|
    ensures var s := Run(EMPTY, rs, le); var x := s.started[i];
            && x.confirmation in s.previews
            && var p := s.previews[x.confirmation];
               x.action == p.action && Same(x.payload, p.payload) && x.at < p.at + 612_000
               && Queued(s, x)
    ensures var started := Run(EMPTY, rs, le).started;
            started[i].confirmation == started[j].confirmation ==> i == j
  {
    RunKeeps(EMPTY, rs, le);
    assert StartOk(Run(EMPTY, rs, le), Run(EMPTY, rs, le).started[i]);
  }

  /** A fresh confirmation accepts its payload in any key order, and no other payload, when the collation ties no keys of it. */
  lemma ConfirmationAcceptsItsPayload(rs: seq<Request>, le: Order, id: Id, payload: Json, now: Time)
    requires Collation(le) && PayloadsWf(rs) && Wf(payload)
    requires var s := Run(EMPTY, rs, le);
             id in s.previews && NoTies(s.previews[id].payload, le)
             && id in s.confirmations && !s.confirmations[id].used && now < s.previews[id].at + 612_000
    ensures var s := Run(EMPTY, rs, le); var p := s.previews[id];
            Spendable(s, id, p.action, payload, now, le) <==> Same(p.payload, payload)
  {
    RunKeeps(EMPTY, rs, le);
    var p := Run(EMPTY, rs, le).previews[id];
    if Same(p.payload, payload) {
      ValueDetermines(p.payload, payload, le);
    }
    if PayloadHash(p.action, p.payload, le) == PayloadHash(p.action, payload, le) {
      HashDetermines(p.action, p.payload, payload, le);
    }
  }

  /** A preview that is not refused leaves an unused confirmation of its action, good for 10 minutes and 12 seconds; else nothing. */
  lemma PreviewSays(s: State, id: Id, action: Text, payload: Json, refusal: Option<nat>, now: Time, le: Order)
    requires id !in s.confirmations
    ensures var after := Next(s, AskPreview(id, action, payload, refusal, now), le);
            if refusal.Some? then after == s
            else
              && id in after.confirmations && after.confirmations[id].action == action && !after.confirmations[id].used
              && after.confirmations[id].expires == now + 612_000
              && after.confirmations[id].hash == action + [0] + Stable(payload, le)
              && after.previews == s.previews[id := Asked(action, payload, now)]
              && after == s.(confirmations := s.confirmations[id := after.confirmations[id]], previews := after.previews)
  {
  }

  /** What a confirmation is good for: unused, in time, for the action and, up to key order, the payload it was previewed for. */
  ghost predicate Fits(s: State, id: Id, action: Text, payload: Json, now: Time) {
    && id in s.previews && id in s.confirmations && !s.confirmations[id].used
    && now < s.previews[id].at + 612_000 && s.previews[id].action == action && Same(s.previews[id].payload, payload)
  }

  lemma FitsIsSpendable(s: State, id: Id, action: Text, payload: Json, now: Time, le: Order)
    requires RowsOk(s, le) && Collation(le) && Wf(payload) && (id in s.previews ==> NoTies(s.previews[id].payload, le))
    ensures Spendable(s, id, action, payload, now, le) <==> Fits(s, id, action, payload, now)
  {
    if id in s.confirmations && s.confirmations[id].action == action {
      var p := s.previews[id];
      assert RowOk(s.confirmations[id], p, le);
      if Same(p.payload, payload) { ValueDetermines(p.payload, payload, le); }
      if PayloadHash(p.action, p.payload, le) == PayloadHash(p.action, payload, le) { HashDetermines(p.action, p.payload, payload, le); }
    }
  }

  /**
    In every run, with keys the collation tells apart: a confirmation that fits starts its operation, queued
    under the action's name, and is used up, unless the checks refuse; one that does not fit changes nothing.
  */
  lemma ConfirmSays(rs: seq<Request>, le: Order, id: Id, action: Text, payload: Json, refusal: Option<nat>, operation: Id, now: Time)
    requires Collation(le) && PayloadsWf(rs) && Wf(payload)
    requires var s := Run(EMPTY, rs, le); operation !in s.operations && (id in s.previews ==> NoTies(s.previews[id].payload, le))
    ensures var s := Run(EMPTY, rs, le);
            Next(s, AskConfirm(id, action, payload, refusal, operation, now), le)
              == if Fits(s, id, action, payload, now) && refusal.None? then
                   State(s.confirmations[id := s.confirmations[id].(used := true)], s.operations[operation := Operation(action, "queued")],
                         s.previews, s.started + [Start(operation, id, action, payload, now)])
                 else s
  {
    RunKeeps(EMPTY, rs, le);
    FitsIsSpendable(Run(EMPTY, rs, le), id, action, payload, now, le);
  }
}
