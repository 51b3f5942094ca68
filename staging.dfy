/** Second-generation staging (`_get_desired_number_of_batteries`): how many
    batteries to drive, with hysteresis on the number already running. */
module Staging {
  import opened Common

  /** The configured power stages: two thresholds per direction and the
      hysteresis offset around them (default 50 W). */
  datatype Stages = Stages(charge1: real, charge2: real, discharge1: real, discharge2: real, offset: real)

  /** The charge stages are used unless the last direction was DISCHARGE. */
  function StageThresholds(stages: Stages, lastDir: PowerDir): (t: (real, real))
    ensures lastDir == Discharge ==> t == (stages.discharge1, stages.discharge2)
    ensures lastDir != Discharge ==> t == (stages.charge1, stages.charge2)
  {
    if lastDir == Discharge then (stages.discharge1, stages.discharge2)
    else (stages.charge1, stages.charge2)
  }

  /** A battery counts as running when its AC power is readable and above
      10 W in magnitude (below that is sensor noise). */
  const ActiveThreshold: real := 10.0

  predicate IsActive(b: BatteryId, acPower: map<BatteryId, real>)
  {
    b in acPower && Abs(acPower[b]) > ActiveThreshold
  }

  /** The number of configured batteries that are running. */
  function ActiveCount(entities: seq<BatteryId>, acPower: map<BatteryId, real>): (n: nat)
    ensures n <= |entities|
  {
    if entities == [] then 0
    else
      var init := entities[..|entities| - 1];
      ActiveCount(init, acPower) + (if IsActive(entities[|entities| - 1], acPower) then 1 else 0)
  }

  /** The count is the number of configured entries that are running: when
      every one is, it is all of them, and when none is, it is zero. */
  lemma {:induction false} ActiveCountExtremes(entities: seq<BatteryId>, acPower: map<BatteryId, real>)
    ensures (forall k :: 0 <= k < |entities| ==> IsActive(entities[k], acPower)) ==> ActiveCount(entities, acPower) == |entities|
    ensures (forall k :: 0 <= k < |entities| ==> !IsActive(entities[k], acPower)) ==> ActiveCount(entities, acPower) == 0
  {
    if entities != [] {
      ActiveCountExtremes(entities[..|entities| - 1], acPower);
    }
  }

  /** The hysteresis table, before the limit by available batteries: with at
      most one battery running, step up above a stage plus the offset; with
      two, step up above stage 2 plus the offset and down below stage 1 minus
      the offset; with three or more, step down below a stage minus the
      offset. */
  function StageTarget(absPower: real, active: nat, s1: real, s2: real, offset: real): (t: int)
    ensures 1 <= t <= 3
  {
    if active <= 1 then
      if absPower > s2 + offset then 3
      else if absPower > s1 + offset then 2
      else 1
    else if active == 2 then
      if absPower > s2 + offset then 3
      else if absPower < s1 - offset then 1
      else 2
    else
      if absPower < s1 - offset then 1
      else if absPower < s2 - offset then 2
      else 3
  }

  /** The target limited by the length of the priority list: one when it
      holds one battery, at most two when it holds two, at most three
      otherwise (including an empty list, which is not limited further). */
  function LimitByAvailable(target: int, numAvailable: nat): (r: int)
    requires 1 <= target <= 3
    ensures 1 <= r <= target
    ensures numAvailable == 1 ==> r == 1
    ensures numAvailable >= 2 ==> r == MinI(target, numAvailable)
    ensures numAvailable == 0 ==> r == target
  {
    if numAvailable == 1 then 1
    else if numAvailable == 2 then MinI(target, 2)
    else MinI(target, 3)
  }

  /** `_get_desired_number_of_batteries` as a function of its readings. */
  function DesiredCount(power: real, lastDir: PowerDir, stages: Stages, numAvailable: nat,
                        entities: seq<BatteryId>, acPower: map<BatteryId, real>): int
  {
    var (s1, s2) := StageThresholds(stages, lastDir);
    LimitByAvailable(StageTarget(Abs(power), ActiveCount(entities, acPower), s1, s2, stages.offset), numAvailable)
  }

  /** `_get_desired_number_of_batteries(power)`: count the running batteries
      in a loop, then apply the hysteresis table and the availability limit. */
  method DesiredNumberOfBatteries(power: real, lastDir: PowerDir, stages: Stages, numAvailable: nat,
                                  entities: seq<BatteryId>, acPower: map<BatteryId, real>) returns (target: int)
    ensures target == DesiredCount(power, lastDir, stages, numAvailable, entities, acPower)
    ensures 1 <= target <= 3
    ensures numAvailable >= 1 ==> target <= numAvailable
  {
    var absPower := Abs(power);
    var (s1, s2) := StageThresholds(stages, lastDir);
    var active := 0;
    var i := 0;
    while i < |entities|
      invariant 0 <= i <= |entities|
      invariant active == ActiveCount(entities[..i], acPower)
    {
      assert entities[..i + 1][..i] == entities[..i];
      var b := entities[i];
      if b in acPower && Abs(acPower[b]) > ActiveThreshold {
        active := active + 1;
      }
      i := i + 1;
    }
    assert entities[..i] == entities;
    target := StageTarget(absPower, active, s1, s2, stages.offset);
    target := LimitByAvailable(target, numAvailable);
  }

  /** Stepping up needs the power strictly above a stage plus the offset;
      stepping down needs it strictly below a stage minus the offset. */
  lemma SwitchNeedsMargin(absPower: real, active: nat, s1: real, s2: real, offset: real)
    ensures var t := StageTarget(absPower, active, s1, s2, offset);
      && (active <= 1 && t == 2 ==> absPower > s1 + offset)
      && (active <= 2 && t == 3 ==> absPower > s2 + offset)
      && (active >= 2 && t == 1 ==> absPower < s1 - offset)
      && (active >= 3 && t == 2 ==> absPower < s2 - offset)
  {
  }

  /** Hysteresis: once the chosen number of batteries is running, the same
      power keeps that number (no flapping at a constant load), given a
      non-negative offset and ordered stages. */
  lemma {:induction false} TargetIsStable(absPower: real, active: nat, s1: real, s2: real, offset: real)
    requires offset >= 0.0 && s1 <= s2
    ensures var t := StageTarget(absPower, active, s1, s2, offset);
      StageTarget(absPower, t, s1, s2, offset) == t
  {
  }

  /** More power never asks for fewer batteries. */
  lemma {:induction false} TargetMonotoneInPower(p: real, q: real, active: nat, s1: real, s2: real, offset: real)
    requires p <= q
    ensures StageTarget(p, active, s1, s2, offset) <= StageTarget(q, active, s1, s2, offset)
  {
  }

  /** Inside the band [stage 1 - offset, stage 2 + offset], two running
      batteries stay two. */
  lemma TwoHoldInsideBand(absPower: real, s1: real, s2: real, offset: real)
    requires s1 - offset <= absPower <= s2 + offset
    ensures StageTarget(absPower, 2, s1, s2, offset) == 2
  {
  }

  /** Charge stages 1800/3600 W, offset 100 W, three batteries listed, none
      running: 1700 W asks for one, 2000 W for two, 3800 W for three. */
  lemma ChargeUpshiftFromSingle(entities: seq<BatteryId>, acPower: map<BatteryId, real>)
    requires |entities| == 3
    requires forall k :: 0 <= k < 3 ==> entities[k] in acPower && acPower[entities[k]] == 0.0
    ensures var st := Stages(1800.0, 3600.0, 0.0, 0.0, 100.0);
      && DesiredCount(1700.0, Charge, st, 3, entities, acPower) == 1
      && DesiredCount(2000.0, Charge, st, 3, entities, acPower) == 2
      && DesiredCount(3800.0, Charge, st, 3, entities, acPower) == 3
  {
    ActiveCountExtremes(entities, acPower);
  }

  /** Discharge stages 1400/2000 W, offset 100 W, two of three batteries at
      50 W: 1500 W and 2050 W keep two, 1200 W drops to one, 2200 W rises to
      three. */
  lemma DischargeHoldTwo(acPower: map<BatteryId, real>)
    requires "b1" in acPower && "b2" in acPower && "b3" in acPower
    requires acPower["b1"] == 50.0 && acPower["b2"] == 50.0 && acPower["b3"] == 0.0
    ensures var st := Stages(0.0, 0.0, 1400.0, 2000.0, 100.0);
      var e := ["b1", "b2", "b3"];
      && DesiredCount(1500.0, Discharge, st, 3, e, acPower) == 2
      && DesiredCount(2050.0, Discharge, st, 3, e, acPower) == 2
      && DesiredCount(1200.0, Discharge, st, 3, e, acPower) == 1
      && DesiredCount(2200.0, Discharge, st, 3, e, acPower) == 3
  {
    var e := ["b1", "b2", "b3"];
    assert e[..2][..1] == ["b1"] && e[..2] == ["b1", "b2"] && e[..3] == e;
    assert ActiveCount(["b1"], acPower) == 1 by {
      assert ["b1"][..0] == [];
    }
    assert ActiveCount(e, acPower) == 2;
  }
}
