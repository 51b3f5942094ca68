/** The first-generation coordinator (`custom_components/marstek_venus_ha`):
    the grid power is always averaged over its window, the direction has a
    fixed ±50 W dead-band, re-ranking has no rate limit, the battery count
    follows two thresholds without hysteresis, the wallbox pause is a single
    timestamp with a five-minute timeout, and each battery command writes a
    charge and a discharge register. */
module FirstGeneration {
  import opened Common
  import BoundedDeque
  import Ranking
  import Distribution

  /** `COORDINATOR_UPDATE_INTERVAL_SECONDS`: one cycle per second. */
  const UpdateIntervalSeconds: int := 1

  /** The direction dead-band around 0 W. */
  const DirectionDeadBand: real := 50.0

  /** The wallbox is taken to draw power above 10 W. */
  const WallboxActiveThreshold: real := 10.0

  /** How long a pause waits for the car: five minutes. */
  const PauseTimeoutSeconds: real := 300.0

  /** The configuration the first generation reads. `wallboxConfigured` says
      whether both wallbox sensors are set. */
  datatype Settings = Settings(
    entities: seq<BatteryId>,
    smoothingSeconds: int,
    minSoc: real,
    maxSoc: real,
    stage1: real,
    stage2: real,
    priorityMinutes: real,
    wallboxConfigured: bool,
    maxSurplus: real)

  /** The sensor states of one cycle: the grid power (None when unavailable
      or unparseable), the readable SoC values, whether the cable sensor
      reads "on", and the wallbox power (None when unavailable or
      unparseable, which counts as 0 W). */
  datatype Readings = Readings(grid: Option<real>, soc: map<BatteryId, real>, cableOn: bool,
                               wallboxPower: Option<real>)

  /** The fields one cycle reads or writes; `pausedAt` is
      `_wallbox_charge_paused_at`. */
  datatype State = State(history: seq<real>, priority: seq<Ranking.Ranked>, lastDirection: PowerDir,
                         lastUpdate: Option<real>, pausedAt: Option<real>)

  /** `_get_deque_size`: `max(1, smoothing_seconds // 1)`. */
  function DequeSize(smoothingSeconds: int): (n: nat)
    ensures n >= 1
    ensures smoothingSeconds >= 1 ==> n == smoothingSeconds
    ensures smoothingSeconds < 1 ==> n == 1
  {
    var q := smoothingSeconds / UpdateIntervalSeconds;
    if q >= 1 then q else 1
  }

  /** After any run of samples the window holds the newest
      `DequeSize(seconds)` of them and the smoothed power is their mean, which
      lies between the smallest and the largest of them. */
  lemma WindowIsNewestSamples(seconds: int, xs: seq<real>)
    requires |xs| > 0
    ensures var w := BoundedDeque.AppendAll([], xs, DequeSize(seconds));
      && w == BoundedDeque.Newest(xs, DequeSize(seconds))
      && |w| == MinI(|xs|, DequeSize(seconds))
      && SeqMin(w) <= Mean(w) <= SeqMax(w)
  {
    var cap := DequeSize(seconds);
    BoundedDeque.FromEmptyKeepsNewest(xs, cap);
    MeanWithinRange(BoundedDeque.Newest(xs, cap));
  }

  /** The direction of the smoothed grid power: CHARGE below -50 W,
      DISCHARGE above 50 W, NEUTRAL in between. */
  function Direction(power: real): PowerDir
  {
    if power < -DirectionDeadBand then Charge
    else if power > DirectionDeadBand then Discharge
    else Neutral
  }

  function Opposite(d: PowerDir): PowerDir
  {
    match d
    case Charge => Discharge
    case Discharge => Charge
    case Neutral => Neutral
  }

  /** Each direction is chosen exactly on its side of the dead-band, and the
      rule is symmetric around 0 W. */
  lemma DirectionHasDeadBand(power: real)
    ensures Direction(power) == Charge <==> power < -50.0
    ensures Direction(power) == Discharge <==> power > 50.0
    ensures Direction(power) == Neutral <==> -50.0 <= power <= 50.0
    ensures Direction(-power) == Opposite(Direction(power))
  {
  }

  /** `_update_battery_priority_if_needed`: re-rank when the direction
      changed or the interval elapsed, with no rate limit. */
  function Rerank(st: Settings, s: State, power: real, soc: map<BatteryId, real>, now: real): State
  {
    var d := Direction(power);
    if d != s.lastDirection || Ranking.ElapsedMoreThan(s.lastUpdate, now, st.priorityMinutes * 60.0)
    then s.(priority := Ranking.Rank(d, st.entities, soc, st.minSoc, st.maxSoc),
            lastDirection := d, lastUpdate := Some(now))
    else s
  }

  /** A re-rank happens exactly when the direction changed or the interval
      elapsed, and then the list holds the batteries the direction admits
      (under `max_soc` when charging, over `min_soc` when discharging, none in
      NEUTRAL), in SoC order; otherwise nothing changes. */
  lemma RerankIff(st: Settings, s: State, power: real, soc: map<BatteryId, real>, now: real)
    ensures var s' := Rerank(st, s, power, soc, now);
      var d := Direction(power);
      && (s'.lastUpdate == Some(now) && s'.lastDirection == d
          <== (d != s.lastDirection || Ranking.ElapsedMoreThan(s.lastUpdate, now, st.priorityMinutes * 60.0)))
      && (!(d != s.lastDirection || Ranking.ElapsedMoreThan(s.lastUpdate, now, st.priorityMinutes * 60.0)) ==> s' == s)
      && (s' != s ==> Ranking.Sorted(s'.priority, d == Discharge))
      && (s' != s ==> forall k :: 0 <= k < |s'.priority| ==>
            && s'.priority[k].id in st.entities && s'.priority[k].id in soc
            && (d == Charge ==> s'.priority[k].soc < st.maxSoc)
            && (d == Discharge ==> s'.priority[k].soc > st.minSoc))
      && (s' != s && d == Neutral ==> s'.priority == [])
  {
    Ranking.RankOrder(Direction(power), st.entities, soc, st.minSoc, st.maxSoc);
    Ranking.RankMembers(Direction(power), st.entities, soc, st.minSoc, st.maxSoc);
  }

  /** Without a rate limit, a direction change one second after the last
      re-rank re-ranks again. */
  lemma NoRateLimit(st: Settings, s: State, power: real, soc: map<BatteryId, real>, t: real)
    requires s.lastUpdate == Some(t) && Direction(power) != s.lastDirection
    ensures Rerank(st, s, power, soc, t + 1.0).lastUpdate == Some(t + 1.0)
  {
  }

  /** The staging of `_distribute_power`: one battery up to stage 1 (or when
      only one is ranked), two up to stage 2 (or when only two are ranked),
      three above. */
  function StageCount(absPower: real, numAvailable: nat, stage1: real, stage2: real): (k: int)
    ensures 1 <= k <= 3
    ensures numAvailable >= 1 ==> k <= numAvailable
  {
    if absPower <= stage1 || numAvailable == 1 then 1
    else if (stage1 < absPower <= stage2) || numAvailable == 2 then 2
    else 3
  }

  /** More power never stages fewer batteries, and with three or more ranked
      the count is exactly the number of thresholds the power exceeds (for
      ordered stages). */
  lemma StageCountMonotone(p: real, q: real, numAvailable: nat, stage1: real, stage2: real)
    requires p <= q && stage1 <= stage2
    ensures StageCount(p, numAvailable, stage1, stage2) <= StageCount(q, numAvailable, stage1, stage2)
    ensures numAvailable >= 3 ==>
      StageCount(p, numAvailable, stage1, stage2) == (if p <= stage1 then 1 else if p <= stage2 then 2 else 3)
  {
  }

  /** `_distribute_power(power)` with the ranked list and the direction
      stored by the last re-rank. */
  function Distribute(st: Settings, priority: seq<Ranking.Ranked>, dir: PowerDir, power: real): seq<Command>
  {
    if |priority| == 0 || dir == Neutral then [ZeroAll]
    else
      var k := StageCount(Abs(power), |priority|, st.stage1, st.stage2);
      var active := priority[..MinI(k, |priority|)];
      var p := RoundHalfEven(Abs(power) / |active| as real);
      Distribution.BatteryCommands(st.entities, Distribution.IdsOf(active), p, dir)
  }

  /** All batteries are zeroed exactly when nothing is ranked or the
      direction is NEUTRAL; otherwise each configured battery gets one
      command: exactly the batteries in the staged top of the list get
      `round(|power| / n)` in the direction, every other battery 0 W. */
  lemma {:induction false} DistributeSplitsEqually(st: Settings, priority: seq<Ranking.Ranked>, dir: PowerDir, power: real)
    ensures var cmds := Distribute(st, priority, dir, power);
      && (cmds == [ZeroAll] <==> |priority| == 0 || dir == Neutral)
      && (|priority| > 0 && dir != Neutral ==>
            var n := MinI(StageCount(Abs(power), |priority|, st.stage1, st.stage2), |priority|);
            && |cmds| == |st.entities|
            && forall k :: 0 <= k < |cmds| ==>
                 cmds[k] == if exists j :: 0 <= j < n && priority[j].id == st.entities[k]
                            then SetBattery(st.entities[k], RoundHalfEven(Abs(power) / n as real), dir)
                            else SetBattery(st.entities[k], 0, Neutral))
  {
    var cmds := Distribute(st, priority, dir, power);
    if |priority| > 0 && dir != Neutral {
      var n := MinI(StageCount(Abs(power), |priority|, st.stage1, st.stage2), |priority|);
      var active := priority[..n];
      var ids := Distribution.IdsOf(active);
      if |st.entities| > 0 {
        assert cmds[0].SetBattery?;
      }
      forall k | 0 <= k < |cmds|
        ensures st.entities[k] in ids <==> exists j :: 0 <= j < n && priority[j].id == st.entities[k]
      {
        if st.entities[k] in ids {
          var i :| 0 <= i < |ids| && ids[i] == st.entities[k];
          assert priority[i].id == st.entities[k];
        }
        if exists j :: 0 <= j < n && priority[j].id == st.entities[k] {
          var j :| 0 <= j < n && priority[j].id == st.entities[k];
          assert ids[j] == st.entities[k];
        }
      }
    }
  }

  /** `_set_battery_power(id, power, direction)`: the values written to the
      charge and the discharge register. */
  function RegisterWrites(power: int, dir: PowerDir): (w: (int, int))
  {
    match dir
    case Charge => (power, 0)
    case Discharge => (0, power)
    case Neutral => (0, 0)
  }

  /** A battery is never asked to charge and discharge at once: at most one
      register is non-zero, it is the register of the direction and it holds
      the power. */
  lemma RegisterWritesExclusive(power: int, dir: PowerDir)
    ensures var (charge, discharge) := RegisterWrites(power, dir);
      && (charge == 0 || discharge == 0)
      && (dir == Neutral ==> charge == 0 && discharge == 0)
      && (dir == Charge ==> charge == power && discharge == 0)
      && (dir == Discharge ==> discharge == power && charge == 0)
  {
  }

  /** Writes of a distribution: every driven battery gets the share only in
      the register of the stored direction. */
  lemma DistributionWritesOneRegister(st: Settings, priority: seq<Ranking.Ranked>, dir: PowerDir, power: real)
    requires |priority| > 0 && dir != Neutral
    ensures var cmds := Distribute(st, priority, dir, power);
      forall k :: 0 <= k < |cmds| && cmds[k].SetBattery? ==>
        var (charge, discharge) := RegisterWrites(cmds[k].power, cmds[k].dir);
        && (dir == Charge ==> discharge == 0)
        && (dir == Discharge ==> charge == 0)
  {
    DistributeSplitsEqually(st, priority, dir, power);
  }

  /** What the wallbox logic returns: whether it took control, the battery
      commands and the new pause timestamp. */
  datatype WallboxResult = WallboxResult(tookControl: bool, commands: seq<Command>, pausedAt: Option<real>)

  /** `_handle_wallbox_logic(smoothed_grid_power)` at time `now`, given the
      direction stored by the last re-rank. */
  function WallboxStep(st: Settings, pausedAt: Option<real>, grid: real, lastDir: PowerDir,
                       cableOn: bool, wallboxPower: Option<real>, now: real): WallboxResult
  {
    if !st.wallboxConfigured then WallboxResult(false, [], pausedAt)
    else if !cableOn then WallboxResult(false, [], None)
    else
      var wb := wallboxPower.GetOr(0.0);
      if wb > WallboxActiveThreshold && lastDir == Discharge then WallboxResult(true, [ZeroAll], pausedAt)
      else if -grid > st.maxSurplus && lastDir == Charge then
        WallboxResult(true, [ZeroAll], if pausedAt.None? then Some(now) else pausedAt)
      else if pausedAt.Some? && wb < WallboxActiveThreshold && now - pausedAt.value > PauseTimeoutSeconds then
        WallboxResult(false, [], None)
      else if pausedAt.Some? && wb > WallboxActiveThreshold then WallboxResult(false, [], None)
      else WallboxResult(false, [], pausedAt)
  }

  /** The wallbox logic takes control exactly to hold the batteries at 0 W:
      while the car draws power and the batteries discharge, or while a
      surplus above the maximum meets charging batteries. An unconfigured
      wallbox or an unplugged cable never takes control, and unplugging
      clears the pause. */
  lemma WallboxControlIff(st: Settings, pausedAt: Option<real>, grid: real, lastDir: PowerDir,
                          cableOn: bool, wallboxPower: Option<real>, now: real)
    ensures var w := WallboxStep(st, pausedAt, grid, lastDir, cableOn, wallboxPower, now);
      var wb := wallboxPower.GetOr(0.0);
      && (w.tookControl <==>
            && st.wallboxConfigured && cableOn
            && ((wb > 10.0 && lastDir == Discharge) || (-grid > st.maxSurplus && lastDir == Charge)))
      && (w.tookControl ==> w.commands == [ZeroAll])
      && (!w.tookControl ==> w.commands == [])
      && (st.wallboxConfigured && !cableOn ==> w.pausedAt.None?)
  {
  }

  /** The pause timestamp records the first cycle of a pause: later cycles of
      the same pause keep it. */
  lemma PauseKeepsFirstStamp(st: Settings, t: real, grid: real, cableOn: bool, wallboxPower: Option<real>, now: real)
    requires st.wallboxConfigured && cableOn && -grid > st.maxSurplus
    ensures WallboxStep(st, None, grid, Charge, cableOn, wallboxPower, now).pausedAt == Some(now)
    ensures WallboxStep(st, Some(t), grid, Charge, cableOn, wallboxPower, now).pausedAt == Some(t)
  {
  }

  /** Once the surplus no longer holds the pause, it ends after five minutes
      without the car drawing power, or as soon as the car draws power. */
  lemma PauseEnds(st: Settings, t: real, grid: real, lastDir: PowerDir, wallboxPower: Option<real>, now: real)
    requires st.wallboxConfigured
    requires !(-grid > st.maxSurplus && lastDir == Charge)
    requires !(wallboxPower.GetOr(0.0) > 10.0 && lastDir == Discharge)
    ensures var w := WallboxStep(st, Some(t), grid, lastDir, true, wallboxPower, now);
      && (wallboxPower.GetOr(0.0) < 10.0 && now - t > PauseTimeoutSeconds ==> w == WallboxResult(false, [], None))
      && (wallboxPower.GetOr(0.0) > 10.0 ==> w == WallboxResult(false, [], None))
      && (wallboxPower.GetOr(0.0) < 10.0 && now - t <= PauseTimeoutSeconds ==> w == WallboxResult(false, [], Some(t)))
  {
  }

  /** One `_async_update` cycle at time `now`: the new state and the battery
      commands. */
  function Cycle(st: Settings, s: State, r: Readings, now: real): (State, seq<Command>)
  {
    if r.grid.None? then (s, [])
    else
      var h := BoundedDeque.Append(s.history, r.grid.value, DequeSize(st.smoothingSeconds));
      var grid := Mean(h);
      var w := WallboxStep(st, s.pausedAt, grid, s.lastDirection, r.cableOn, r.wallboxPower, now);
      var s1 := s.(history := h, pausedAt := w.pausedAt);
      if w.tookControl then (s1, w.commands)
      else
        var s2 := Rerank(st, s1, grid, r.soc, now);
        (s2, Distribute(st, s2.priority, s2.lastDirection, grid))
  }

  /** A pause held by a surplus: the batteries were charging when it began,
      and every sample in the window shows a surplus above the maximum. */
  predicate HeldBySurplus(st: Settings, s: State)
  {
    && s.lastDirection == Charge && s.pausedAt.Some?
    && |s.history| <= DequeSize(st.smoothingSeconds)
    && forall k :: 0 <= k < |s.history| ==> s.history[k] < -st.maxSurplus
  }

  /** While the surplus stays above the maximum, a pause holds the batteries
      at 0 W indefinitely: the five-minute timeout is checked only after the
      surplus rule, the stored direction stays CHARGE because the cycle ends
      before re-ranking, and the state stays held, whatever the age of the
      pause. */
  lemma SurplusHoldsPauseIndefinitely(st: Settings, s: State, r: Readings, now: real)
    requires st.wallboxConfigured && r.cableOn && HeldBySurplus(st, s)
    requires r.grid.Some? && r.grid.value < -st.maxSurplus
    ensures var (s', cmds) := Cycle(st, s, r, now);
      cmds == [ZeroAll] && HeldBySurplus(st, s') && s'.pausedAt == s.pausedAt
  {
    var cap := DequeSize(st.smoothingSeconds);
    var h := BoundedDeque.Append(s.history, r.grid.value, cap);
    SurplusWindowStaysBelow(st, s.history, r.grid.value);
    MeanBelow(h, -st.maxSurplus);
    var w := WallboxStep(st, s.pausedAt, Mean(h), Charge, true, r.wallboxPower, now);
    assert w == WallboxResult(true, [ZeroAll], s.pausedAt);
    assert Cycle(st, s, r, now) == (s.(history := h), [ZeroAll]);
  }

  /** Appending a sample beyond the surplus to a window of such samples
      keeps every sample of the window beyond it. */
  lemma SurplusWindowStaysBelow(st: Settings, history: seq<real>, sample: real)
    requires |history| <= DequeSize(st.smoothingSeconds)
    requires forall k :: 0 <= k < |history| ==> history[k] < -st.maxSurplus
    requires sample < -st.maxSurplus
    ensures var h := BoundedDeque.Append(history, sample, DequeSize(st.smoothingSeconds));
      && 0 < |h| <= DequeSize(st.smoothingSeconds)
      && forall k :: 0 <= k < |h| ==> h[k] < -st.maxSurplus
  {
    var all := history + [sample];
    assert forall k :: 0 <= k < |all| ==> all[k] < -st.maxSurplus;
  }

  /** The first-generation coordinator object; the ranking state lives in a
      ranker whose `Recalculate` is shared with the second generation. */
  class Coordinator {
    const settings: Settings
    const capacity: nat
    var history: seq<real>
    const ranker: Ranking.PriorityRanker
    var pausedAt: Option<real>

    ghost predicate Valid()
      reads this
    {
      capacity == DequeSize(settings.smoothingSeconds) && |history| <= capacity
    }

    function Snapshot(): State
      reads this, ranker
    {
      State(history, ranker.priority, ranker.lastDirection, ranker.lastUpdate, pausedAt)
    }

    constructor (settings: Settings)
      ensures Valid() && this.settings == settings
      ensures Snapshot() == State([], [], Neutral, None, None)
    {
      this.settings := settings;
      capacity := DequeSize(settings.smoothingSeconds);
      history := [];
      ranker := new Ranking.PriorityRanker();
      pausedAt := None;
    }

    /** `_get_smoothed_grid_power`: append a readable sample and return the
        mean of the window. */
    method SmoothedGridPower(reading: Option<real>) returns (r: Option<real>)
      requires Valid()
      modifies this`history
      ensures Valid()
      ensures reading.None? ==> r.None? && history == old(history)
      ensures reading.Some? ==>
        && history == BoundedDeque.Append(old(history), reading.value, capacity)
        && r == Some(Mean(history))
    {
      if reading.None? {
        return None;
      }
      history := BoundedDeque.Append(history, reading.value, capacity);
      r := Some(Mean(history));
    }

    /** `_update_battery_priority_if_needed(power)` at time `now`. */
    method UpdatePriorityIfNeeded(power: real, soc: map<BatteryId, real>, now: real)
      modifies ranker
      ensures Snapshot() == Rerank(settings, old(Snapshot()), power, soc, now)
    {
      var d := Direction(power);
      var elapsed := ranker.lastUpdate.None? || now - ranker.lastUpdate.value > settings.priorityMinutes * 60.0;
      if d != ranker.lastDirection || elapsed {
        ranker.Recalculate(d, settings.entities, soc, settings.minSoc, settings.maxSoc);
        ranker.lastDirection := d;
        ranker.lastUpdate := Some(now);
      }
    }

    /** `_distribute_power(power)`: stage, split, then one command per
        configured battery in a loop. The source's check for an empty active
        list cannot fire (the list is non-empty by then) and is not repeated. */
    method DistributePower(power: real) returns (commands: seq<Command>)
      ensures commands == Distribute(settings, ranker.priority, ranker.lastDirection, power)
    {
      var absPower := Abs(power);
      var priority := ranker.priority;
      var n := |priority|;
      if n == 0 || ranker.lastDirection == Neutral {
        return [ZeroAll];
      }
      var active;
      if absPower <= settings.stage1 || n == 1 {
        active := priority[..1];
      } else if (settings.stage1 < absPower <= settings.stage2) || n == 2 {
        active := priority[..2];
      } else {
        active := priority[..3];
      }
      var p := RoundHalfEven(absPower / |active| as real);
      commands := Distribution.EmitCommands(settings.entities, Distribution.IdsOf(active), p, ranker.lastDirection);
    }

    /** `_handle_wallbox_logic(grid)` at time `now`. */
    method HandleWallbox(grid: real, cableOn: bool, wallboxPower: Option<real>, now: real)
      returns (tookControl: bool, commands: seq<Command>)
      modifies this`pausedAt
      ensures WallboxResult(tookControl, commands, pausedAt)
        == WallboxStep(settings, old(pausedAt), grid, ranker.lastDirection, cableOn, wallboxPower, now)
    {
      if !settings.wallboxConfigured {
        return false, [];
      }
      if !cableOn {
        pausedAt := None;
        return false, [];
      }
      var wb := if wallboxPower.Some? then wallboxPower.value else 0.0;
      if wb > WallboxActiveThreshold {
        if ranker.lastDirection == Discharge {
          return true, [ZeroAll];
        }
      }
      var surplus := -grid;
      if surplus > settings.maxSurplus && ranker.lastDirection == Charge {
        if pausedAt.None? {
          pausedAt := Some(now);
        }
        return true, [ZeroAll];
      }
      if pausedAt.Some? && wb < WallboxActiveThreshold {
        if now - pausedAt.value > PauseTimeoutSeconds {
          pausedAt := None;
          return false, [];
        }
      }
      if pausedAt.Some? && wb > WallboxActiveThreshold {
        pausedAt := None;
      }
      return false, [];
    }

    /** `_async_update` at time `now` with the readings of this cycle. */
    method Update(r: Readings, now: real) returns (commands: seq<Command>)
      requires Valid()
      modifies this, ranker
      ensures Valid()
      ensures (Snapshot(), commands) == Cycle(settings, old(Snapshot()), r, now)
    {
      var grid := SmoothedGridPower(r.grid);
      if grid.None? {
        return [];
      }
      var took;
      took, commands := HandleWallbox(grid.value, r.cableOn, r.wallboxPower, now);
      if took {
        return;
      }
      UpdatePriorityIfNeeded(grid.value, r.soc, now);
      commands := DistributePower(grid.value);
    }
  }
}
