/** Second-generation power distribution (`_distribute_power`): the PV cap,
    the below-minimum gate with its cycle counters, the SoC re-check of the
    chosen batteries, the equal split with its per-battery cap, and the
    commands sent to every configured battery. */
module Distribution {
  import opened Common
  import Ranking

  /** `_below_min_charge_count` and `_below_min_discharge_count`. */
  datatype Counters = Counters(belowCharge: nat, belowDischarge: nat)

  /** `BELOW_MIN_CYCLES_TO_ZERO`, the number of consecutive below-minimum
      cycles before all batteries are set to zero that the coordinator
      passes in. */
  const BelowMinCyclesToZero: nat := 10

  /** What the distribution asks of the PID state when it is called from a
      PID step (`from_pid=True`). */
  datatype PidEffect = NoPidEffect | SuspendPid(direction: PowerDir) | ResetPid

  /** The resolved configuration `_distribute_power` reads, and the number
      of consecutive below-minimum cycles that zeroes the batteries. */
  datatype Limits = Limits(maxCharge: int, maxDischarge: int, minSurplus: real, minConsumption: real,
                           minSoc: real, maxSoc: real, cyclesToZero: nat)

  /** The commands of one call, the counters after it and the PID effect. */
  datatype Outcome = Outcome(commands: seq<Command>, counters: Counters, effect: PidEffect)

  /** The requested battery count, clamped to [0, number of configured
      batteries]. */
  function ClampTarget(target: int, numEntities: nat): (t: nat)
    ensures t <= numEntities
    ensures target < 0 ==> t == 0
    ensures target > numEntities ==> t == numEntities
    ensures 0 <= target <= numEntities ==> t == target
  {
    if target < 0 then 0 else if target > numEntities then numEntities else target
  }

  /** The magnitude to distribute: `abs(power)`, capped by the (non-negative)
      PV power while charging when the PV power is readable. */
  function Magnitude(power: real, dir: PowerDir, pv: Option<real>): (m: real)
    ensures 0.0 <= m <= Abs(power)
    ensures dir == Charge && pv.Some? ==> m <= MaxR(0.0, pv.value) && (m == Abs(power) || m == MaxR(0.0, pv.value))
    ensures dir != Charge || pv.None? ==> m == Abs(power)
  {
    if dir == Charge && pv.Some? then MinR(Abs(power), MaxR(0.0, pv.value)) else Abs(power)
  }

  /** The below-minimum gate: `None` when the call goes on, with the counters
      it continues with; `Some` with the counters and PID effect when this
      call brings the counter of its direction to the limit and zeroes all
      batteries. */
  function Gate(dir: PowerDir, magnitude: real, c: Counters, lim: Limits, fromPid: bool): (r: (Counters, Option<PidEffect>))
    ensures dir == Neutral ==> r == (c, None)
    ensures dir != Neutral ==> r.0.belowCharge == 0 || r.0.belowDischarge == 0
    ensures r.1.Some? ==> r.0 == Counters(0, 0) && r.1.value == (if fromPid then SuspendPid(dir) else NoPidEffect)
    ensures r.1.Some? ==> magnitude < (if dir == Charge then lim.minSurplus else lim.minConsumption)
  {
    if dir == Charge && magnitude < lim.minSurplus then
      if c.belowCharge + 1 >= lim.cyclesToZero then
        (Counters(0, 0), Some(if fromPid then SuspendPid(Charge) else NoPidEffect))
      else (Counters(c.belowCharge + 1, 0), None)
    else if dir == Discharge && magnitude < lim.minConsumption then
      if c.belowDischarge + 1 >= lim.cyclesToZero then
        (Counters(0, 0), Some(if fromPid then SuspendPid(Discharge) else NoPidEffect))
      else (Counters(0, c.belowDischarge + 1), None)
    else if dir != Neutral then (Counters(0, 0), None)
    else (c, None)
  }

  /** The SoC re-check of a chosen battery: a non-empty id with a readable
      SoC that is not at or above the maximum while charging, nor at or below
      the minimum while discharging. */
  predicate Eligible(b: Ranking.Ranked, dir: PowerDir, soc: map<BatteryId, real>, lim: Limits)
  {
    && b.id != ""
    && b.id in soc
    && !(dir == Charge && soc[b.id] >= lim.maxSoc)
    && !(dir == Discharge && soc[b.id] <= lim.minSoc)
  }

  /** The chosen batteries that pass the re-check, in priority order. */
  function EligibleOf(active: seq<Ranking.Ranked>, dir: PowerDir, soc: map<BatteryId, real>, lim: Limits)
    : (r: seq<Ranking.Ranked>)
    ensures |r| <= |active|
    ensures forall k :: 0 <= k < |r| ==> r[k] in active && Eligible(r[k], dir, soc, lim)
  {
    if active == [] then []
    else
      var init := active[..|active| - 1];
      var rest := EligibleOf(init, dir, soc, lim);
      if Eligible(active[|active| - 1], dir, soc, lim) then rest + [active[|active| - 1]] else rest
  }

  /** No chosen battery that passes the re-check is dropped. */
  lemma {:induction false} EligibleOfComplete(active: seq<Ranking.Ranked>, dir: PowerDir, soc: map<BatteryId, real>,
                                              lim: Limits, b: Ranking.Ranked)
    requires b in active && Eligible(b, dir, soc, lim)
    ensures b in EligibleOf(active, dir, soc, lim)
  {
    var init := active[..|active| - 1];
    if active[|active| - 1] != b {
      assert b in init;
      EligibleOfComplete(init, dir, soc, lim, b);
    }
  }

  function IdsOf(s: seq<Ranking.Ranked>): (r: seq<BatteryId>)
    ensures |r| == |s| && forall k :: 0 <= k < |s| ==> r[k] == s[k].id
  {
    if s == [] then [] else IdsOf(s[..|s| - 1]) + [s[|s| - 1].id]
  }

  /** `round(abs_power / n)`, then capped by the maximum power of the
      direction (no cap in NEUTRAL). */
  function PerBatteryPower(magnitude: real, n: nat, dir: PowerDir, lim: Limits): (p: int)
    requires n > 0
    ensures dir == Charge ==> p <= lim.maxCharge
    ensures dir == Discharge ==> p <= lim.maxDischarge
    ensures p <= RoundHalfEven(magnitude / n as real)
    ensures dir == Neutral ==> p == RoundHalfEven(magnitude / n as real)
  {
    var share := RoundHalfEven(magnitude / n as real);
    if dir == Charge then MinI(share, lim.maxCharge)
    else if dir == Discharge then MinI(share, lim.maxDischarge)
    else share
  }

  /** One command per configured battery, in configuration order: the share
      and the direction for a driven battery, 0 W and NEUTRAL for the rest. */
  function BatteryCommands(entities: seq<BatteryId>, driven: seq<BatteryId>, power: int, dir: PowerDir)
    : (r: seq<Command>)
    ensures |r| == |entities|
    ensures forall k :: 0 <= k < |r| ==>
      r[k] == (if entities[k] in driven then SetBattery(entities[k], power, dir) else SetBattery(entities[k], 0, Neutral))
  {
    if entities == [] then []
    else
      var init := entities[..|entities| - 1];
      var b := entities[|entities| - 1];
      BatteryCommands(init, driven, power, dir)
        + [if b in driven then SetBattery(b, power, dir) else SetBattery(b, 0, Neutral)]
  }

  /** `_distribute_power(power, target, from_pid=...)` with the direction
      `dir` (`_last_power_direction`), the priority list, the SoC and PV
      readings of this cycle, and the counters before the call. */
  function Plan(power: real, target: int, dir: PowerDir, priority: seq<Ranking.Ranked>,
                entities: seq<BatteryId>, soc: map<BatteryId, real>, pv: Option<real>,
                lim: Limits, fromPid: bool, c: Counters): (r: Outcome)
    ensures r.commands == [ZeroAll] || |r.commands| == |entities|
    ensures r.effect != NoPidEffect ==> fromPid && r.commands == [ZeroAll]
  {
    var t := ClampTarget(target, |entities|);
    var magnitude := Magnitude(power, dir, pv);
    var (c', stop) := Gate(dir, magnitude, c, lim, fromPid);
    if stop.Some? then Outcome([ZeroAll], c', stop.value)
    else if t == 0 then Outcome([ZeroAll], c', NoPidEffect)
    else
      var chosen := priority[..MinI(t, |priority|)];
      var eligible := EligibleOf(chosen, dir, soc, lim);
      if eligible == [] then Outcome([ZeroAll], c', if fromPid then ResetPid else NoPidEffect)
      else
        var p := PerBatteryPower(magnitude, |eligible|, dir, lim);
        Outcome(BatteryCommands(entities, IdsOf(eligible), p, dir), c', NoPidEffect)
  }

  /** The counters after `k` identical calls. */
  function CountersAfter(k: nat, power: real, target: int, dir: PowerDir, priority: seq<Ranking.Ranked>,
                         entities: seq<BatteryId>, soc: map<BatteryId, real>, pv: Option<real>,
                         lim: Limits, fromPid: bool, c: Counters): Counters
  {
    if k == 0 then c
    else Plan(power, target, dir, priority, entities, soc, pv, lim, fromPid,
                    CountersAfter(k - 1, power, target, dir, priority, entities, soc, pv, lim, fromPid, c)).counters
  }

  /** Repeated charge requests below the minimum surplus only count: after
      k of them, fewer than the limit, the charge counter is k (starting from
      zeroed counters) and such a call did not zero the batteries (when a
      battery is to be driven); the call that reaches the limit zeroes them,
      resets the counters and, from a PID step, suspends the PID in the
      charge direction. */
  lemma {:induction false} BelowMinChargeCountsThenZeroes(k: nat, power: real, target: int,
                                                          priority: seq<Ranking.Ranked>, entities: seq<BatteryId>,
                                                          soc: map<BatteryId, real>, pv: Option<real>,
                                                          lim: Limits, fromPid: bool)
    requires Magnitude(power, Charge, pv) < lim.minSurplus
    requires k < lim.cyclesToZero
    ensures CountersAfter(k, power, target, Charge, priority, entities, soc, pv, lim, fromPid, Counters(0, 0))
      == Counters(k, 0)
    ensures (&& k + 1 < lim.cyclesToZero && ClampTarget(target, |entities|) > 0
             && EligibleOf(priority[..MinI(ClampTarget(target, |entities|), |priority|)], Charge, soc, lim) != [])
      ==> ZeroAll !in Plan(power, target, Charge, priority, entities, soc, pv, lim, fromPid, Counters(k, 0)).commands
    ensures k + 1 == lim.cyclesToZero ==>
      Plan(power, target, Charge, priority, entities, soc, pv, lim, fromPid, Counters(k, 0))
        == Outcome([ZeroAll], Counters(0, 0), if fromPid then SuspendPid(Charge) else NoPidEffect)
  {
    if k > 0 {
      BelowMinChargeCountsThenZeroes(k - 1, power, target, priority, entities, soc, pv, lim, fromPid);
    }
    if k + 1 < lim.cyclesToZero && ClampTarget(target, |entities|) > 0
       && EligibleOf(priority[..MinI(ClampTarget(target, |entities|), |priority|)], Charge, soc, lim) != [] {
      var o := Plan(power, target, Charge, priority, entities, soc, pv, lim, fromPid, Counters(k, 0));
      BelowMinContinues(power, target, Charge, priority, entities, soc, pv, lim, fromPid, Counters(k, 0));
    }
  }

  /** A call that is not stopped by the gate zeroes the batteries only when
      no battery is to be driven. */
  lemma BelowMinContinues(power: real, target: int, dir: PowerDir, priority: seq<Ranking.Ranked>,
                          entities: seq<BatteryId>, soc: map<BatteryId, real>, pv: Option<real>,
                          lim: Limits, fromPid: bool, c: Counters)
    requires Gate(dir, Magnitude(power, dir, pv), c, lim, fromPid).1.None?
    requires ClampTarget(target, |entities|) > 0
    requires EligibleOf(priority[..MinI(ClampTarget(target, |entities|), |priority|)], dir, soc, lim) != []
    ensures ZeroAll !in Plan(power, target, dir, priority, entities, soc, pv, lim, fromPid, c).commands
  {
    var o := Plan(power, target, dir, priority, entities, soc, pv, lim, fromPid, c);
    forall k | 0 <= k < |o.commands| ensures o.commands[k] != ZeroAll {
    }
  }

  /** A call the gate passes with a positive target but no chosen battery
      that passes the SoC re-check zeroes every battery and, from a PID
      step, resets the PID; the counters are the gate's. */
  lemma NoEligibleZeroesAndResets(power: real, target: int, dir: PowerDir, priority: seq<Ranking.Ranked>,
                                  entities: seq<BatteryId>, soc: map<BatteryId, real>, pv: Option<real>,
                                  lim: Limits, fromPid: bool, c: Counters)
    requires Gate(dir, Magnitude(power, dir, pv), c, lim, fromPid).1.None?
    requires ClampTarget(target, |entities|) > 0
    requires EligibleOf(priority[..MinI(ClampTarget(target, |entities|), |priority|)], dir, soc, lim) == []
    ensures Plan(power, target, dir, priority, entities, soc, pv, lim, fromPid, c)
      == Outcome([ZeroAll], Gate(dir, Magnitude(power, dir, pv), c, lim, fromPid).0,
                 if fromPid then ResetPid else NoPidEffect)
  {
  }

  /** A call the gate passes whose target clamps to 0 zeroes every battery
      and leaves the PID alone, whether or not it comes from a PID step. */
  lemma ZeroTargetZeroesAll(power: real, target: int, dir: PowerDir, priority: seq<Ranking.Ranked>,
                            entities: seq<BatteryId>, soc: map<BatteryId, real>, pv: Option<real>,
                            lim: Limits, fromPid: bool, c: Counters)
    requires Gate(dir, Magnitude(power, dir, pv), c, lim, fromPid).1.None?
    requires ClampTarget(target, |entities|) == 0
    ensures Plan(power, target, dir, priority, entities, soc, pv, lim, fromPid, c)
      == Outcome([ZeroAll], Gate(dir, Magnitude(power, dir, pv), c, lim, fromPid).0, NoPidEffect)
  {
  }

  /** One call below the minimum counts in its own direction and clears the
      other counter; reaching the limit zeroes every battery, issues no
      per-battery command, clears the counters and, from a PID step, asks
      for the PID to be suspended in that direction. */
  lemma BelowMinStep(power: real, target: int, dir: PowerDir, priority: seq<Ranking.Ranked>,
                     entities: seq<BatteryId>, soc: map<BatteryId, real>, pv: Option<real>,
                     lim: Limits, fromPid: bool, c: Counters)
    requires (dir == Charge && Magnitude(power, dir, pv) < lim.minSurplus)
          || (dir == Discharge && Magnitude(power, dir, pv) < lim.minConsumption)
    ensures var o := Plan(power, target, dir, priority, entities, soc, pv, lim, fromPid, c);
      var count := if dir == Charge then c.belowCharge + 1 else c.belowDischarge + 1;
      && (count >= lim.cyclesToZero ==>
            o == Outcome([ZeroAll], Counters(0, 0), if fromPid then SuspendPid(dir) else NoPidEffect))
      && (count < lim.cyclesToZero ==>
            o.counters == (if dir == Charge then Counters(count, 0) else Counters(0, count))
            && o.effect != SuspendPid(Charge) && o.effect != SuspendPid(Discharge))
  {
  }

  /** A call at or above the minimum in CHARGE or DISCHARGE resets both
      counters. */
  lemma AboveMinResetsCounters(power: real, target: int, dir: PowerDir, priority: seq<Ranking.Ranked>,
                               entities: seq<BatteryId>, soc: map<BatteryId, real>, pv: Option<real>,
                               lim: Limits, fromPid: bool, c: Counters)
    requires (dir == Charge && Magnitude(power, dir, pv) >= lim.minSurplus)
          || (dir == Discharge && Magnitude(power, dir, pv) >= lim.minConsumption)
    ensures Plan(power, target, dir, priority, entities, soc, pv, lim, fromPid, c).counters == Counters(0, 0)
  {
  }

  /** Safety: every battery driven to charge has a readable SoC below the
      maximum, every battery driven to discharge one above the minimum, and
      every driven battery is among the first `target` of the priority list. */
  lemma {:induction false} DrivenBatteriesAreSafe(power: real, target: int, dir: PowerDir, priority: seq<Ranking.Ranked>,
                                                  entities: seq<BatteryId>, soc: map<BatteryId, real>, pv: Option<real>,
                                                  lim: Limits, fromPid: bool, c: Counters)
    ensures var o := Plan(power, target, dir, priority, entities, soc, pv, lim, fromPid, c);
      forall k :: 0 <= k < |o.commands| && o.commands[k].SetBattery? && o.commands[k].dir != Neutral ==>
        && o.commands[k].dir == dir
        && o.commands[k].id in soc
        && (dir == Charge ==> soc[o.commands[k].id] < lim.maxSoc && o.commands[k].power <= lim.maxCharge)
        && (dir == Discharge ==> soc[o.commands[k].id] > lim.minSoc && o.commands[k].power <= lim.maxDischarge)
        && exists j :: 0 <= j < MinI(ClampTarget(target, |entities|), |priority|) && priority[j].id == o.commands[k].id
  {
    var o := Plan(power, target, dir, priority, entities, soc, pv, lim, fromPid, c);
    var m := MinI(ClampTarget(target, |entities|), |priority|);
    var chosen := priority[..m];
    var eligible := EligibleOf(chosen, dir, soc, lim);
    PlanCommands(power, target, dir, priority, entities, soc, pv, lim, fromPid, c);
    if o.commands != [ZeroAll] {
      var p := PerBatteryPower(Magnitude(power, dir, pv), |eligible|, dir, lim);
      DrivenCommandsAreEligible(entities, chosen, dir, soc, lim, p);
      forall k | 0 <= k < |o.commands| && o.commands[k].SetBattery? && o.commands[k].dir != Neutral
        ensures exists j :: 0 <= j < m && priority[j].id == o.commands[k].id
      {
        var j :| 0 <= j < |chosen| && chosen[j].id == o.commands[k].id;
        assert priority[j] == chosen[j];
      }
    }
  }

  /** A call either zeroes all batteries or sends the per-battery commands
      for the eligible ones among the first `target` ranked. */
  lemma PlanCommands(power: real, target: int, dir: PowerDir, priority: seq<Ranking.Ranked>,
                     entities: seq<BatteryId>, soc: map<BatteryId, real>, pv: Option<real>,
                     lim: Limits, fromPid: bool, c: Counters)
    ensures var o := Plan(power, target, dir, priority, entities, soc, pv, lim, fromPid, c);
      var eligible := EligibleOf(priority[..MinI(ClampTarget(target, |entities|), |priority|)], dir, soc, lim);
      || o.commands == [ZeroAll]
      || (&& eligible != []
          && o.commands == BatteryCommands(entities, IdsOf(eligible),
                                           PerBatteryPower(Magnitude(power, dir, pv), |eligible|, dir, lim), dir))
  {
  }

  /** The per-battery commands drive only chosen batteries that pass the SoC
      re-check, and only in the requested direction. */
  lemma DrivenCommandsAreEligible(entities: seq<BatteryId>, chosen: seq<Ranking.Ranked>, dir: PowerDir,
                                  soc: map<BatteryId, real>, lim: Limits, p: int)
    ensures var cmds := BatteryCommands(entities, IdsOf(EligibleOf(chosen, dir, soc, lim)), p, dir);
      forall k :: 0 <= k < |cmds| && cmds[k].dir != Neutral ==>
        && cmds[k] == SetBattery(entities[k], p, dir)
        && entities[k] in soc
        && (dir == Charge ==> soc[entities[k]] < lim.maxSoc)
        && (dir == Discharge ==> soc[entities[k]] > lim.minSoc)
        && exists j :: 0 <= j < |chosen| && chosen[j].id == entities[k]
  {
    var ids := IdsOf(EligibleOf(chosen, dir, soc, lim));
    var cmds := BatteryCommands(entities, ids, p, dir);
    forall k | 0 <= k < |cmds| && cmds[k].dir != Neutral
      ensures entities[k] in ids
    {
    }
    forall k | 0 <= k < |cmds| && cmds[k].dir != Neutral
      ensures entities[k] in soc
      ensures dir == Charge ==> soc[entities[k]] < lim.maxSoc
      ensures dir == Discharge ==> soc[entities[k]] > lim.minSoc
      ensures exists j :: 0 <= j < |chosen| && chosen[j].id == entities[k]
    {
      DrivenIsChosenAndEligible(chosen, dir, soc, lim, entities[k]);
    }
  }

  /** A battery kept by the SoC re-check was chosen and passes the re-check. */
  lemma DrivenIsChosenAndEligible(chosen: seq<Ranking.Ranked>, dir: PowerDir, soc: map<BatteryId, real>,
                                  lim: Limits, id: BatteryId)
    requires id in IdsOf(EligibleOf(chosen, dir, soc, lim))
    ensures id in soc
    ensures dir == Charge ==> soc[id] < lim.maxSoc
    ensures dir == Discharge ==> soc[id] > lim.minSoc
    ensures exists j :: 0 <= j < |chosen| && chosen[j].id == id
  {
    var eligible := EligibleOf(chosen, dir, soc, lim);
    var ids := IdsOf(eligible);
    var i :| 0 <= i < |ids| && ids[i] == id;
    assert Eligible(eligible[i], dir, soc, lim);
    assert eligible[i] in chosen;
    var j :| 0 <= j < |chosen| && chosen[j] == eligible[i];
  }

  /** In CHARGE or DISCHARGE every per-battery command drives in that
      direction or writes 0 W in NEUTRAL: no battery is driven against the
      requested direction. */
  lemma CommandsUseDirection(power: real, target: int, dir: PowerDir, priority: seq<Ranking.Ranked>,
                             entities: seq<BatteryId>, soc: map<BatteryId, real>, pv: Option<real>,
                             lim: Limits, fromPid: bool, c: Counters)
    requires dir != Neutral
    ensures var o := Plan(power, target, dir, priority, entities, soc, pv, lim, fromPid, c);
      forall k :: 0 <= k < |o.commands| && o.commands[k].SetBattery? ==>
        o.commands[k].dir == dir || (o.commands[k].dir == Neutral && o.commands[k].power == 0)
  {
  }

  /** When batteries are driven, each of them gets the same share: the
      distributed magnitude over their number, rounded, never above it by
      more than half a watt, and never negative. */
  lemma SharesAreEqual(power: real, target: int, dir: PowerDir, priority: seq<Ranking.Ranked>,
                       entities: seq<BatteryId>, soc: map<BatteryId, real>, pv: Option<real>,
                       lim: Limits, fromPid: bool, c: Counters, k: nat, n: nat)
    requires n > 0 && n == |EligibleOf(priority[..MinI(ClampTarget(target, |entities|), |priority|)], dir, soc, lim)|
    requires var o := Plan(power, target, dir, priority, entities, soc, pv, lim, fromPid, c);
      k < |o.commands| && o.commands[k].SetBattery? && o.commands[k].dir != Neutral
    ensures var o := Plan(power, target, dir, priority, entities, soc, pv, lim, fromPid, c);
      && o.commands[k].power == PerBatteryPower(Magnitude(power, dir, pv), n, dir, lim)
      && o.commands[k].power as real <= Magnitude(power, dir, pv) / n as real + 0.5
  {
  }

  /** Charge 6000 W over two batteries at SoC 50 and 40 with a 2500 W cap:
      both get 2500 W, in CHARGE. */
  lemma CapsShareAtMaxCharge()
    ensures var prio := [Ranking.Ranked("b1", 50.0), Ranking.Ranked("b2", 40.0)];
      var soc := map["b1" := 50.0, "b2" := 40.0];
      var lim := Limits(2500, 2500, 0.0, 0.0, 10.0, 100.0, BelowMinCyclesToZero);
      Plan(6000.0, 2, Charge, prio, ["b1", "b2"], soc, None, lim, false, Counters(0, 0)).commands
        == [SetBattery("b1", 2500, Charge), SetBattery("b2", 2500, Charge)]
  {
    var prio := [Ranking.Ranked("b1", 50.0), Ranking.Ranked("b2", 40.0)];
    var soc := map["b1" := 50.0, "b2" := 40.0];
    var lim := Limits(2500, 2500, 0.0, 0.0, 10.0, 100.0, BelowMinCyclesToZero);
    assert prio[..2] == prio;
    assert prio[..1] == [prio[0]];
    assert EligibleOf([prio[0]], Charge, soc, lim) == [prio[0]] by {
      assert [prio[0]][..0] == [];
    }
    assert EligibleOf(prio, Charge, soc, lim) == prio;
    assert IdsOf([prio[0]]) == ["b1"] by {
      assert [prio[0]][..0] == [];
    }
    assert IdsOf(prio) == ["b1", "b2"];
    assert Magnitude(6000.0, Charge, None) == 6000.0;
    assert Gate(Charge, 6000.0, Counters(0, 0), lim, false) == (Counters(0, 0), None);
    assert RoundHalfEven(6000.0 / 2.0) == 3000;
    assert PerBatteryPower(6000.0, 2, Charge, lim) == 2500;
    var e: seq<BatteryId> := ["b1", "b2"];
    assert e[..1] == ["b1"];
    var cmds := BatteryCommands(e, ["b1", "b2"], 2500, Charge);
    assert cmds[0] == SetBattery("b1", 2500, Charge);
    assert cmds[1] == SetBattery("b2", 2500, Charge);
    assert Plan(6000.0, 2, Charge, prio, e, soc, None, lim, false, Counters(0, 0)).commands == cmds;
  }

  /** The re-check loop over the chosen batteries. */
  method FilterEligible(chosen: seq<Ranking.Ranked>, dir: PowerDir, soc: map<BatteryId, real>, lim: Limits)
    returns (eligible: seq<Ranking.Ranked>)
    ensures eligible == EligibleOf(chosen, dir, soc, lim)
  {
    eligible := [];
    var i := 0;
    while i < |chosen|
      invariant 0 <= i <= |chosen|
      invariant eligible == EligibleOf(chosen[..i], dir, soc, lim)
    {
      assert chosen[..i + 1][..i] == chosen[..i];
      var b := chosen[i];
      if b.id != "" && b.id in soc {
        var level := soc[b.id];
        if !(dir == Charge && level >= lim.maxSoc) && !(dir == Discharge && level <= lim.minSoc) {
          eligible := eligible + [b];
        }
      }
      i := i + 1;
    }
    assert chosen[..i] == chosen;
  }

  /** The command loop over the configured batteries. */
  method EmitCommands(entities: seq<BatteryId>, driven: seq<BatteryId>, p: int, dir: PowerDir)
    returns (commands: seq<Command>)
    ensures commands == BatteryCommands(entities, driven, p, dir)
  {
    commands := [];
    var j := 0;
    while j < |entities|
      invariant 0 <= j <= |entities|
      invariant commands == BatteryCommands(entities[..j], driven, p, dir)
    {
      assert entities[..j + 1][..j] == entities[..j];
      var b := entities[j];
      if b in driven {
        commands := commands + [SetBattery(b, p, dir)];
      } else {
        commands := commands + [SetBattery(b, 0, Neutral)];
      }
      j := j + 1;
    }
    assert entities[..j] == entities;
  }

  /** The distribution state the coordinator keeps: the two below-minimum
      counters. */
  class PowerDistributor {
    var belowMinCharge: nat
    var belowMinDischarge: nat

    constructor ()
      ensures belowMinCharge == 0 && belowMinDischarge == 0
    {
      belowMinCharge := 0;
      belowMinDischarge := 0;
    }

    /** The below-minimum gate of `_distribute_power`: count a call below the
        minimum of its direction, clear the other counter, and stop (with the
        PID effect) once the count reaches the limit; a call at or above the
        minimum clears both counters. */
    method CountBelowMinimum(dir: PowerDir, magnitude: real, lim: Limits, fromPid: bool)
      returns (stop: Option<PidEffect>)
      modifies this`belowMinCharge, this`belowMinDischarge
      ensures (Counters(belowMinCharge, belowMinDischarge), stop)
        == Gate(dir, magnitude, Counters(old(belowMinCharge), old(belowMinDischarge)), lim, fromPid)
    {
      stop := None;
      if dir == Charge && magnitude < lim.minSurplus {
        belowMinCharge := belowMinCharge + 1;
        belowMinDischarge := 0;
        if belowMinCharge >= lim.cyclesToZero {
          belowMinCharge := 0;
          return Some(if fromPid then SuspendPid(Charge) else NoPidEffect);
        }
      }
      if dir == Discharge && magnitude < lim.minConsumption {
        belowMinDischarge := belowMinDischarge + 1;
        belowMinCharge := 0;
        if belowMinDischarge >= lim.cyclesToZero {
          belowMinDischarge := 0;
          return Some(if fromPid then SuspendPid(Discharge) else NoPidEffect);
        }
      }
      if (dir == Charge && magnitude >= lim.minSurplus) || (dir == Discharge && magnitude >= lim.minConsumption) {
        belowMinCharge := 0;
        belowMinDischarge := 0;
      }
    }

    /** `_distribute_power`: updates the counters in place, re-checks the
        chosen batteries in a loop and emits one command per configured
        battery in a second loop. */
    method Distribute(power: real, target: int, dir: PowerDir, priority: seq<Ranking.Ranked>,
                      entities: seq<BatteryId>, soc: map<BatteryId, real>, pv: Option<real>,
                      lim: Limits, fromPid: bool)
      returns (commands: seq<Command>, effect: PidEffect)
      modifies this`belowMinCharge, this`belowMinDischarge
      ensures var o := Plan(power, target, dir, priority, entities, soc, pv, lim, fromPid,
                                               Counters(old(belowMinCharge), old(belowMinDischarge)));
        commands == o.commands && effect == o.effect && Counters(belowMinCharge, belowMinDischarge) == o.counters
    {
      var t := ClampTarget(target, |entities|);
      var magnitude := Magnitude(power, dir, pv);
      var stop := CountBelowMinimum(dir, magnitude, lim, fromPid);
      if stop.Some? {
        commands, effect := [ZeroAll], stop.value;
        return;
      }
      effect := NoPidEffect;
      if t == 0 {
        commands := [ZeroAll];
        return;
      }
      var chosen := priority[..MinI(t, |priority|)];
      var eligible := FilterEligible(chosen, dir, soc, lim);
      if eligible == [] {
        commands := [ZeroAll];
        effect := if fromPid then ResetPid else NoPidEffect;
        return;
      }
      var p := PerBatteryPower(magnitude, |eligible|, dir, lim);
      commands := EmitCommands(entities, IdsOf(eligible), p, dir);
    }
  }
}
