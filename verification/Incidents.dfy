/**
  Debounced incidents: the automata behind service and threshold monitoring, and the exact
  history of observations at which each of them writes to the journal.
*/
module Incidents {
  import opened Common

  type Time = int

  datatype Status = Baseline | Available | Unavailable | Healthy | Warning | Critical
  datatype Level = Fine | Hold | Warn | Crit
  datatype Event = WentDown | CameBack | Raised(level: Level) | Recovered

  /** A row of the monitor table; `target` is the level its data carries, if any. */
  datatype Row = Row(status: Status, failures: nat, target: Option<Level>, observedAt: Time, changedAt: Time)

  function Saved(previous: Option<Row>, status: Status, failures: nat, target: Option<Level>, at: Time): Row {
    Row(status, failures, target, at, if previous.Some? && previous.value.status == status then previous.value.changedAt else at)
  }

  function StatusOr(previous: Option<Row>, default: Status): Status {
    if previous.Some? then previous.value.status else default
  }

  // ---------- one observation ----------

  function ServiceRow(previous: Option<Row>, healthy: bool, at: Time): Row {
    if healthy then Saved(previous, Available, 0, None, at)
    else
      var failures := (if previous.Some? then previous.value.failures else 0) + 1;
      Saved(previous, if failures >= 2 then Unavailable else StatusOr(previous, Baseline), failures, None, at)
  }

  function ServiceEvent(previous: Option<Row>, healthy: bool): Option<Event> {
    var down := previous.Some? && previous.value.status == Unavailable;
    if healthy then (if down then Some(CameBack) else None)
    else if previous.Some? && previous.value.failures >= 1 && !down then Some(WentDown)
    else None
  }

  function StatusOf(level: Level): Status
    requires level.Warn? || level.Crit?
  {
    if level.Warn? then Warning else Critical
  }

  function Streak(previous: Option<Row>, level: Level): nat {
    if previous.Some? && previous.value.target == Some(level) then previous.value.failures + 1 else 1
  }

  function ThresholdRow(previous: Option<Row>, level: Level, at: Time): Row {
    match level
    case Hold => Saved(previous, StatusOr(previous, Healthy), if previous.Some? then previous.value.failures else 0, None, at)
    case Fine => Saved(previous, Healthy, 0, None, at)
    case _ =>
      var failures := Streak(previous, level);
      Saved(previous, if failures >= 2 then StatusOf(level) else StatusOr(previous, Baseline), failures, Some(level), at)
  }

  function ThresholdEvent(previous: Option<Row>, level: Level): Option<Event> {
    match level
    case Hold => None
    case Fine => if previous.Some? && (previous.value.status == Warning || previous.value.status == Critical) then Some(Recovered) else None
    case _ => if Streak(previous, level) >= 2 && StatusOr(previous, Baseline) != StatusOf(level) then Some(Raised(level)) else None
  }

  // ---------- the service ----------

  datatype Entry = Entry(key: string, event: Event, at: Time)

  function Get(states: map<string, Row>, key: string): Option<Row> {
    if key in states then Some(states[key]) else None
  }

  function Logged(journal: seq<Entry>, key: string, event: Option<Event>, at: Time): seq<Entry> {
    if event.Some? then journal + [Entry(key, event.value, at)] else journal
  }

  class MonitoringService {
    var states: map<string, Row>
    var journal: seq<Entry>

    constructor ()
      ensures states == map[] && journal == []
    {
      states, journal := map[], [];
    }

    method Record(key: string, event: Event, at: Time)
      modifies this`journal
      ensures journal == old(journal) + [Entry(key, event, at)]
    {
      journal := journal + [Entry(key, event, at)];
    }

    method Save(key: string, status: Status, failures: nat, target: Option<Level>, at: Time)
      modifies this`states
      ensures states == old(states)[key := Saved(Get(old(states), key), status, failures, target, at)]
    {
      var changedAt := if key in states && states[key].status == status then states[key].changedAt else at;
      states := states[key := Row(status, failures, target, at, changedAt)];
    }

    /** Also the telemetry success and failure of an engine, under the engine's own key. */
    method ObserveService(key: string, healthy: bool, at: Time)
      modifies this
      ensures states == old(states)[key := ServiceRow(Get(old(states), key), healthy, at)]
      ensures journal == Logged(old(journal), key, ServiceEvent(Get(old(states), key), healthy), at)
    {
      var previous := Get(states, key);
      if healthy {
        if previous.Some? && previous.value.status == Unavailable {
          Record(key, CameBack, at);
        }
        Save(key, Available, 0, None, at);
        return;
      }
      var failures := (if previous.Some? then previous.value.failures else 0) + 1;
      if failures >= 2 && !(previous.Some? && previous.value.status == Unavailable) {
        Record(key, WentDown, at);
      }
      Save(key, if failures >= 2 then Unavailable else StatusOr(previous, Baseline), failures, None, at);
    }

    method ObserveThreshold(key: string, level: Level, at: Time)
      modifies this
      ensures states == old(states)[key := ThresholdRow(Get(old(states), key), level, at)]
      ensures journal == Logged(old(journal), key, ThresholdEvent(Get(old(states), key), level), at)
    {
      var previous := Get(states, key);
      if level.Hold? {
        Save(key, StatusOr(previous, Healthy), if previous.Some? then previous.value.failures else 0, None, at);
        return;
      }
      if level.Fine? {
        if previous.Some? && (previous.value.status == Warning || previous.value.status == Critical) {
          Record(key, Recovered, at);
        }
        Save(key, Healthy, 0, None, at);
        return;
      }
      var failures := if previous.Some? && previous.value.target == Some(level) then previous.value.failures + 1 else 1;
      if failures >= 2 && !(previous.Some? && previous.value.status == StatusOf(level)) {
        Record(key, Raised(level), at);
      }
      Save(key, if failures >= 2 then StatusOf(level) else StatusOr(previous, Baseline), failures, Some(level), at);
    }
  }

  // ---------- a history of observations of one service ----------

  datatype Check = Check(healthy: bool, at: Time)

  function AfterChecks(checks: seq<Check>): Option<Row> {
    if checks == [] then None
    else
      var last := checks[|checks| - 1];
      Some(ServiceRow(AfterChecks(checks[..|checks| - 1]), last.healthy, last.at))
  }

  /** What the i-th check writes to the journal. */
  function CheckEvent(checks: seq<Check>, i: nat): Option<Event>
    requires i < |checks|
  {
    ServiceEvent(AfterChecks(checks[..i]), checks[i].healthy)
  }

  predicate Failed(checks: seq<Check>, i: int) {
    0 <= i < |checks| && !checks[i].healthy
  }

  /** The length of the run of failures a history ends with. */
  function FailureRun(checks: seq<Check>): nat {
    if checks == [] || checks[|checks| - 1].healthy then 0 else 1 + FailureRun(checks[..|checks| - 1])
  }

  lemma {:induction false} RowFollowsRun(checks: seq<Check>)
    ensures checks != [] ==> AfterChecks(checks).value.failures == FailureRun(checks)
    ensures checks != [] ==> (AfterChecks(checks).value.status == Unavailable <==> FailureRun(checks) >= 2)
  {
    if checks != [] {
      RowFollowsRun(checks[..|checks| - 1]);
    }
  }

  /** The status after a history: unavailable from the second failure in a row on, baseline only at a first check that failed. */
  lemma ServiceStatusIs(checks: seq<Check>)
    requires checks != []
    ensures var row := AfterChecks(checks).value;
            && row.status == (if FailureRun(checks) >= 2 then Unavailable else if checks[0].healthy || |checks| > 1 then Available else Baseline)
            && row.failures == FailureRun(checks) && row.observedAt == checks[|checks| - 1].at
  {
    RowFollowsRun(checks);
    if FailureRun(checks) < 2 { StatusFollowsRun(checks); }
  }

  lemma {:induction false} StatusFollowsRun(checks: seq<Check>)
    requires checks != [] && FailureRun(checks) < 2
    ensures AfterChecks(checks).value.status == if checks[0].healthy || |checks| > 1 then Available else Baseline
  {
    var n := |checks| - 1;
    var before := checks[..n];
    RowFollowsRun(before);
    if !checks[n].healthy && n > 0 {
      assert before[n - 1].healthy;
      StatusFollowsRun(before);
    }
  }

  /**
    "Unavailable" is logged exactly at the second failure of each maximal run of failures, and
    "restored" exactly at the first success after a run of at least two.
  */
  lemma ServiceLogIsExact(checks: seq<Check>, i: nat)
    requires i < |checks|
    ensures CheckEvent(checks, i) == Some(WentDown) <==> Failed(checks, i) && Failed(checks, i - 1) && !Failed(checks, i - 2)
    ensures CheckEvent(checks, i) == Some(CameBack) <==> !Failed(checks, i) && Failed(checks, i - 1) && Failed(checks, i - 2)
  {
    RowFollowsRun(checks[..i]);
    if i >= 1 {
      assert checks[..i][..i - 1] == checks[..i - 1];
    }
    if i >= 2 {
      assert checks[..i - 1][..i - 2] == checks[..i - 2];
    }
  }

  /** `changed_at` is the time of the first of the checks since which the status is what it is now. */
  lemma {:induction false} ChangedAtDatesStatus(checks: seq<Check>) returns (j: nat)
    requires checks != []
    ensures j < |checks| && AfterChecks(checks).value.changedAt == checks[j].at
    ensures forall k :: j < k <= |checks| ==> AfterChecks(checks[..k]).value.status == AfterChecks(checks).value.status
    ensures j > 0 ==> AfterChecks(checks[..j]).value.status != AfterChecks(checks).value.status
  {
    var n := |checks| - 1;
    var before := checks[..n];
    assert checks[..|checks|] == checks;
    if n > 0 && AfterChecks(before).value.status == AfterChecks(checks).value.status {
      j := ChangedAtDatesStatus(before);
      forall k | j < k <= |checks| ensures AfterChecks(checks[..k]).value.status == AfterChecks(checks).value.status {
        if k <= n { assert checks[..k] == before[..k]; }
      }
      assert checks[..j] == before[..j];
    } else {
      j := n;
    }
  }

  // ---------- a history of levels of one threshold ----------

  datatype Measure = Measure(level: Level, at: Time)

  function AfterMeasures(ms: seq<Measure>): Option<Row> {
    if ms == [] then None
    else
      var last := ms[|ms| - 1];
      Some(ThresholdRow(AfterMeasures(ms[..|ms| - 1]), last.level, last.at))
  }

  function MeasureEvent(ms: seq<Measure>, i: nat): Option<Event>
    requires i < |ms|
  {
    ThresholdEvent(AfterMeasures(ms[..i]), ms[i].level)
  }

  predicate Alarm(level: Level) {
    level.Warn? || level.Crit?
  }

  /** The alarm a history has settled on: the last level seen twice in a row, unless a healthy measure came after. */
  function Settled(ms: seq<Measure>): Option<Level> {
    if ms == [] then None
    else
      var n := |ms| - 1;
      if ms[n].level.Fine? then None
      else if Alarm(ms[n].level) && n >= 1 && ms[n - 1].level == ms[n].level then Some(ms[n].level)
      else Settled(ms[..n])
  }

  function StatusAlarm(status: Status): Option<Level> {
    match status
    case Warning => Some(Warn)
    case Critical => Some(Crit)
    case _ => None
  }

  lemma {:induction false} RowFollowsSettled(ms: seq<Measure>)
    ensures ms != [] ==>
      var row := AfterMeasures(ms).value; var last := ms[|ms| - 1].level;
      && StatusAlarm(row.status) == Settled(ms)
      && row.target == (if Alarm(last) then Some(last) else None)
      && (Alarm(last) ==> row.failures >= 1)
  {
    if ms != [] {
      RowFollowsSettled(ms[..|ms| - 1]);
    }
  }

  /**
    A level is raised exactly when it is measured twice in a row and is not the alarm already
    settled on; recovery is logged exactly at a healthy measure while an alarm is settled.
  */
  lemma ThresholdLogIsExact(ms: seq<Measure>, i: nat)
    requires i < |ms|
    ensures MeasureEvent(ms, i)
         == if ms[i].level.Fine? && Settled(ms[..i]).Some? then Some(Recovered)
            else if Alarm(ms[i].level) && i >= 1 && ms[i - 1].level == ms[i].level && Settled(ms[..i]) != Some(ms[i].level)
            then Some(Raised(ms[i].level))
            else None
  {
    RowFollowsSettled(ms[..i]);
  }

  /** A healthy measure or a held one has been the first to count: until then a threshold without an alarm is at its baseline. */
  predicate Measured(ms: seq<Measure>) {
    ms != [] && (ms[0].level.Hold? || exists i :: 0 <= i < |ms| && ms[i].level.Fine?)
  }

  /** The status after a history of measures: that of the settled alarm, else healthy, or the baseline. */
  lemma {:induction false} ThresholdStatusIs(ms: seq<Measure>)
    requires ms != []
    ensures var row := AfterMeasures(ms).value;
            && row.status == (if Settled(ms) == Some(Warn) then Warning else if Settled(ms) == Some(Crit) then Critical
                              else if Measured(ms) then Healthy else Baseline)
            && row.observedAt == ms[|ms| - 1].at
  {
    var n := |ms| - 1;
    var before := ms[..n];
    if n > 0 {
      ThresholdStatusIs(before);
      RowFollowsSettled(before);
      MeasuredMore(ms);
      if Settled(before).Some? && Settled(ms).None? { assert ms[n].level.Fine?; }
    }
    RowFollowsSettled(ms);
  }

  lemma MeasuredMore(ms: seq<Measure>)
    requires |ms| > 1
    ensures Measured(ms) <==> Measured(ms[..|ms| - 1]) || ms[|ms| - 1].level.Fine?
  {
    var before := ms[..|ms| - 1];
    if Measured(before) && !ms[0].level.Hold? {
      var i :| 0 <= i < |before| && before[i].level.Fine?;
      assert ms[i].level.Fine?;
    }
    if ms[|ms| - 1].level.Fine? { assert ms[|ms| - 1].level.Fine?; }
    if Measured(ms) && !ms[0].level.Hold? && !ms[|ms| - 1].level.Fine? {
      var i :| 0 <= i < |ms| && ms[i].level.Fine?;
      assert before[i].level.Fine?;
    }
  }

  /** The journal of a threshold: its events without the silent measures. */
  function Journal(ms: seq<Measure>): seq<Event> {
    if ms == [] then []
    else
      var event := MeasureEvent(ms, |ms| - 1);
      Journal(ms[..|ms| - 1]) + (if event.Some? then [event.value] else [])
  }

  lemma {:induction false} LastEventIsSettled(ms: seq<Measure>)
    ensures var log := Journal(ms);
            Settled(ms) == if log != [] && log[|log| - 1].Raised? then Some(log[|log| - 1].level) else None
  {
    if ms != [] {
      LastEventIsSettled(ms[..|ms| - 1]);
      ThresholdLogIsExact(ms, |ms| - 1);
      RowFollowsSettled(ms);
    }
  }

  /** The journal never repeats its last event and never starts with a recovery. */
  lemma {:induction false} JournalAlternates(ms: seq<Measure>)
    ensures var log := Journal(ms);
            && (log != [] ==> log[0] != Recovered)
            && (forall i :: 0 < i < |log| ==> log[i] != log[i - 1])
  {
    if ms != [] {
      var before := ms[..|ms| - 1];
      JournalAlternates(before);
      LastEventIsSettled(before);
      ThresholdLogIsExact(ms, |ms| - 1);
      OnlyEvents(before);
    }
  }

  lemma {:induction false} OnlyEvents(ms: seq<Measure>)
    ensures forall e :: e in Journal(ms) ==> e.Raised? || e == Recovered
  {
    if ms != [] {
      OnlyEvents(ms[..|ms| - 1]);
    }
  }

  /** Between the recovery and the raising limits nothing changes: neither the settled alarm nor the status. */
  lemma HoldHolds(ms: seq<Measure>, at: Time)
    ensures var held := ms + [Measure(Hold, at)];
            && Settled(held) == Settled(ms) && Journal(held) == Journal(ms)
            && (ms != [] ==> AfterMeasures(held).value.status == AfterMeasures(ms).value.status)
  {
  }

  // ---------- the levels of the disk ----------

  function DiskLevel(percent: int): Level {
    if percent >= 95 then Crit else if percent >= 85 then Warn else if percent < 80 then Fine else Hold
  }

  function DiskMeasures(percents: seq<int>): (ms: seq<Measure>)
    ensures |ms| == |percents| && forall i :: 0 <= i < |ms| ==> ms[i].level == DiskLevel(percents[i])
  {
    seq(|percents|, i requires 0 <= i < |percents| => Measure(DiskLevel(percents[i]), i))
  }

  /** The disk alarm rises only on two readings, critical from 95% and a warning from 85% on, and falls only on one below 80%. */
  lemma DiskAlarmHysteresis(percents: seq<int>, i: nat)
    requires i < |percents| && MeasureEvent(DiskMeasures(percents), i).Some?
    ensures match MeasureEvent(DiskMeasures(percents), i).value
            case Raised(level) =>
              && i >= 1
              && if level.Crit? then percents[i] >= 95 && percents[i - 1] >= 95
                 else level.Warn? && 85 <= percents[i] < 95 && 85 <= percents[i - 1] < 95
            case _ => percents[i] < 80
  {
    ThresholdLogIsExact(DiskMeasures(percents), i);
  }

  // ---------- the levels of the certificate ----------

  function TlsLevel(days: int): Level {
    if days < 7 then Crit else if days < 30 then Warn else Fine
  }

  function TlsMeasures(days: seq<int>): (ms: seq<Measure>)
    ensures |ms| == |days| && forall i :: 0 <= i < |ms| ==> ms[i].level == TlsLevel(days[i])
  {
    seq(|days|, i requires 0 <= i < |days| => Measure(TlsLevel(days[i]), i))
  }

  /** The certificate's alarm rises only on two readings, critical below 7 days and a warning below 30, and falls from 30 days on. */
  lemma TlsAlarms(days: seq<int>, i: nat)
    requires i < |days| && MeasureEvent(TlsMeasures(days), i).Some?
    ensures match MeasureEvent(TlsMeasures(days), i).value
            case Raised(level) =>
              && i >= 1
              && if level.Crit? then days[i] < 7 && days[i - 1] < 7 else level.Warn? && 7 <= days[i] < 30 && 7 <= days[i - 1] < 30
            case _ => days[i] >= 30
  {
    ThresholdLogIsExact(TlsMeasures(days), i);
  }
}
