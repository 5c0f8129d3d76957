/** What the readings of a counter add up to when growth is added and a drop is taken for a restart. */
module Readings {
  import opened Common
  import opened Ledger
  import opened Traffic

  /** One direction of a counter's readings, counted as the service counts them. */
  function Counted(rs: seq<nat>): nat {
    if rs == [] then 0
    else
      var before, last := rs[..|rs| - 1], rs[|rs| - 1];
      Counted(before) + (if before != [] && last >= before[|before| - 1] then last - before[|before| - 1] else last)
  }

  /** The readings that stand just before a drop. */
  function Peaks(rs: seq<nat>): nat {
    if |rs| < 2 then 0
    else Peaks(rs[..|rs| - 1]) + (if rs[|rs| - 1] < rs[|rs| - 2] then rs[|rs| - 2] else 0)
  }

  /** Counting deltas gives the last reading plus every reading just before a drop. */
  lemma {:induction false} CountedIsPeaks(rs: seq<nat>)
    ensures Counted(rs) == Peaks(rs) + (if rs == [] then 0 else rs[|rs| - 1])
  {
    if |rs| >= 1 {
      CountedIsPeaks(rs[..|rs| - 1]);
    }
  }

  function Ups(rs: seq<Bytes>): (us: seq<nat>)
    ensures |us| == |rs|
  {
    seq(|rs|, i requires 0 <= i < |rs| => rs[i].up)
  }

  function Downs(rs: seq<Bytes>): (ds: seq<nat>)
    ensures |ds| == |rs|
  {
    seq(|rs|, i requires 0 <= i < |rs| => rs[i].down)
  }

  function CountedBytes(rs: seq<Bytes>): Bytes {
    Bytes(Counted(Ups(rs)), Counted(Downs(rs)))
  }

  lemma CountOne(rs: seq<Bytes>, point: Bytes)
    ensures CountedBytes(rs + [point]) == CountedBytes(rs).Plus(Delta(if rs == [] then None else Some(rs[|rs| - 1]), point))
  {
    var all := rs + [point];
    assert Ups(all)[..|rs|] == Ups(rs) && Downs(all)[..|rs|] == Downs(rs);
  }

  // ---------- counting against the greatest reading ----------

  /** Whatever is recorded after a fall is zero. */
  predicate Straight(rs: seq<nat>) {
    forall i, j, k :: 0 <= i < j <= k < |rs| ==> rs[i] <= rs[j] || rs[k] == 0
  }

  function Greatest(rs: seq<nat>): (n: nat)
    ensures forall i :: 0 <= i < |rs| ==> rs[i] <= n
    ensures rs != [] ==> exists i :: 0 <= i < |rs| && rs[i] == n
  {
    if rs == [] then 0
    else
      var before := Greatest(rs[..|rs| - 1]);
      if rs[|rs| - 1] < before then before else rs[|rs| - 1]
  }

  predicate Rising(rs: seq<nat>) {
    forall i, j :: 0 <= i < j < |rs| ==> rs[i] <= rs[j]
  }

  lemma StraightMore(before: seq<nat>, x: nat)
    ensures Straight(before + [x]) <==> Straight(before) && (x == 0 || Rising(before + [x]))
  {
    var rs := before + [x];
    var last := rs[|before|];
    assert forall i :: 0 <= i < |before| ==> rs[i] == before[i];
    if Straight(rs) {
      forall i, j, k | 0 <= i < j <= k < |before| ensures before[i] <= before[j] || before[k] == 0 {
        assert rs[i] <= rs[j] || rs[k] == 0;
      }
      forall i, j | 0 <= i < j < |rs| ensures rs[i] <= rs[j] || x == 0 {
        assert rs[i] <= rs[j] || last == 0;
      }
    } else if Straight(before) {
      var i, j, k :| 0 <= i < j <= k < |rs| && rs[i] > rs[j] && rs[k] != 0;
      if k < |before| { var first, second, third := before[i], before[j], before[k]; }
    }
  }

  lemma RisingMore(before: seq<nat>, x: nat)
    requires before != []
    ensures Rising(before + [x]) <==> Rising(before) && before[|before| - 1] <= x
  {
    var rs := before + [x];
    assert forall i :: 0 <= i < |before| ==> rs[i] == before[i];
    if Rising(rs) {
      assert rs[|before| - 1] <= rs[|before|];
      forall i, j | 0 <= i < j < |before| ensures before[i] <= before[j] { assert rs[i] <= rs[j]; }
    }
  }

  /** Straight readings that end above zero have been rising; rising readings end at the greatest. */
  lemma StraightRises(rs: seq<nat>)
    requires rs != []
    ensures var last := rs[|rs| - 1];
            && (Straight(rs) && last > 0 ==> Rising(rs)) && (Rising(rs) ==> last == Greatest(rs))
            && (Greatest(rs) == 0 ==> Rising(rs))
  {
    var last := rs[|rs| - 1];
    if Straight(rs) && last > 0 {
      forall i, j | 0 <= i < j < |rs| ensures rs[i] <= rs[j] {
        assert rs[i] <= rs[j] || last == 0;
      }
    }
  }

  /** The step of the induction below, in numbers: count, greatest and last reading, straight and rising, before and after a reading. */
  lemma OneMore(count: nat, greatest: nat, last: nat, straight: bool, rising: bool, x: nat, straight': bool)
    requires last <= greatest <= count && (count == greatest <==> straight)
    requires (straight && last > 0 ==> rising) && (rising ==> last == greatest) && (greatest == 0 ==> rising)
    requires straight' <==> straight && (x == 0 || (rising && last <= x))
    ensures var count' := count + (if x >= last then x - last else x);
            var greatest' := if x < greatest then greatest else x;
            count' >= greatest' && (count' == greatest' <==> straight')
  {
  }

  lemma GreatestMore(before: seq<nat>, x: nat)
    requires before != []
    ensures Greatest(before + [x]) == if x < Greatest(before) then Greatest(before) else x
  {
    assert (before + [x])[..|before|] == before;
  }

  lemma CountedMore(before: seq<nat>, x: nat)
    requires before != []
    ensures Counted(before + [x]) == Counted(before) + (if x >= before[|before| - 1] then x - before[|before| - 1] else x)
  {
    var rs := before + [x];
    assert rs[..|rs| - 1] == before && rs[|rs| - 1] == x;
  }

  /** The count is never below the greatest reading, and it is that reading exactly when the readings are straight. */
  lemma {:induction false} CountedIsGreatestIff(rs: seq<nat>)
    ensures Counted(rs) >= Greatest(rs)
    ensures Counted(rs) == Greatest(rs) <==> Straight(rs)
  {
    if |rs| >= 2 {
      var n := |rs| - 1;
      var before, x := rs[..n], rs[n];
      assert rs == before + [x];
      CountedIsGreatestIff(before);
      GreatestMore(before, x);
      CountedMore(before, x);
      StraightMore(before, x);
      RisingMore(before, x);
      StraightRises(before);
      OneMore(Counted(before), Greatest(before), before[n - 1], Straight(before), Rising(before), x, Straight(rs));
    }
  }
}
