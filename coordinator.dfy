/** The second-generation coordinator's update cycle (`_async_update`): smooth
    the grid power, derive the real house power, let the wallbox logic take
    control, otherwise run the PID step (releasing or keeping a suspension)
    or re-rank, stage and either distribute or hand over to the batteries'
    own control in CT mode; and the refresh interval it asks for. */
module CoordinatorV2 {
  import opened Common
  import BoundedDeque
  import Smoothing
  import Ranking
  import Staging
  import Pid
  import Distribution
  import Wallbox

  /** The resolved configuration of one coordinator. */
  datatype Config = Config(
    entities: seq<BatteryId>,
    smoothing: Setting,
    ctMode: bool,
    pidEnabled: bool,
    gains: Pid.Gains,
    stages: Staging.Stages,
    limits: Distribution.Limits,
    priorityMinutes: real,
    wallbox: Wallbox.Settings)

  /** The sensor states of one cycle. `grid` is None when the grid sensor is
      not configured or cannot be read; `acPower` and `soc` hold the readable
      battery sensors; `pv` is the PV power with its unit. */
  datatype Readings = Readings(
    grid: Option<real>,
    acPower: map<BatteryId, real>,
    soc: map<BatteryId, real>,
    pv: Wallbox.PowerReading,
    cableOn: bool,
    wallboxPower: Wallbox.PowerReading)

  /** Every field the update cycle reads or writes. */
  datatype State = State(
    history: seq<real>,
    priority: seq<Ranking.Ranked>,
    lastDirection: PowerDir,
    lastRerank: Option<real>,
    integral: real,
    prevError: Option<real>,
    prevTime: Option<real>,
    suspended: bool,
    suspendDirection: PowerDir,
    counters: Distribution.Counters,
    wallbox: Wallbox.State,
    wallboxActive: bool)

  /** `_get_pv_power`: None when unreadable, kW scaled to W. */
  function PvWatts(r: Wallbox.PowerReading): (w: Option<real>)
    ensures r.Unreadable? <==> w.None?
    ensures r.Reading? && !r.kilowatts ==> w == Some(r.value)
    ensures r.Reading? && r.kilowatts ==> w == Some(r.value * 1000.0)
  {
    match r
    case Unreadable => None
    case Reading(v, kw) => Some(if kw then v * 1000.0 else v)
  }

  /** The refresh rate in CT mode while the wallbox is not in control. */
  const CtModeInterval: int := 10

  /** `_get_effective_update_interval`: the configured interval, except in CT
      mode without wallbox control, where the batteries are polled every 10 s. */
  function EffectiveUpdateInterval(configured: int, ctMode: bool, wallboxActive: bool): (s: int)
    ensures ctMode && !wallboxActive ==> s == CtModeInterval
    ensures !ctMode || wallboxActive ==> s == configured
  {
    if ctMode && !wallboxActive then CtModeInterval else configured
  }

  /** `_update_battery_priority_if_needed` on the state. */
  function Rerank(c: Config, s: State, realPower: Option<real>, given: Option<PowerDir>,
                  soc: map<BatteryId, real>, now: real): State
  {
    var d := Ranking.GateDirection(realPower, given);
    if d.Some? && Ranking.ShouldRerank(d.value, s.lastDirection, s.lastRerank, now, c.priorityMinutes, s.priority == [])
    then s.(priority := Ranking.Rank(d.value, c.entities, soc, c.limits.minSoc, c.limits.maxSoc),
            lastDirection := d.value, lastRerank := Some(now))
    else s
  }

  /** The actuator limit of the PID step: the maximum power of a direction
      times the number of batteries (at least one). */
  function Saturation(maxPower: int, n: int): (r: real)
    ensures n >= 1 ==> r == (maxPower * n) as real
    ensures n < 1 ==> r == maxPower as real
  {
    (maxPower * MaxI(1, n)) as real
  }

  /** The time step, the derivative and then the output of
      `_pid_apply_anti_windup` with the limits the first staging call gives
      (on the output of `_pid_compute_output` and the last direction). The
      result is the output and the new integral. */
  function PidOutput(c: Config, s: State, error: real, dt: real, derivative: real,
                     acPower: map<BatteryId, real>): (real, real)
  {
    var raw := Pid.ComputeOutput(c.gains, s.integral, error, derivative);
    var n := Staging.DesiredCount(RoundHalfEven(Abs(raw)) as real, s.lastDirection, c.stages,
                                  |s.priority|, c.entities, acPower);
    Pid.AntiWindup(c.gains, s.integral, error, dt, derivative,
                   Saturation(c.limits.maxCharge, n), Saturation(c.limits.maxDischarge, n))
  }

  /** What a `from_pid` distribution asks of the PID state. */
  function ApplyEffect(s: State, e: Distribution.PidEffect): (r: State)
    ensures e.NoPidEffect? ==> r == s
    ensures e.SuspendPid? ==> r.suspended && r.suspendDirection == e.direction
    ensures !e.NoPidEffect? ==> r.integral == 0.0 && r.prevError.None? && r.prevTime.None?
  {
    match e
    case NoPidEffect => s
    case SuspendPid(d) => s.(suspended := true, suspendDirection := d, integral := 0.0, prevError := None, prevTime := None)
    case ResetPid => s.(integral := 0.0, prevError := None, prevTime := None)
  }

  /** The power limit of a direction. */
  function MaxTotal(lim: Distribution.Limits, dir: PowerDir): int
  {
    if dir == Charge then lim.maxCharge else lim.maxDischarge
  }

  /** The second half of `_pid_control_step`, for a non-zero output: drive
      in the direction of its sign, re-rank, stage on its magnitude, cap it
      by the maximum power of that many batteries and distribute it. */
  function PidDrive(c: Config, s: State, output: real, r: Readings, now: real): (State, seq<Command>)
  {
    var dir := if output > 0.0 then Charge else Discharge;
    var s1 := Rerank(c, s, None, Some(dir), r.soc, now).(lastDirection := dir);
    var n := Staging.DesiredCount(RoundHalfEven(Abs(output)) as real, dir, c.stages, |s1.priority|,
                                  c.entities, r.acPower);
    var requested := MinI(RoundHalfEven(Abs(output)), MaxTotal(c.limits, dir) * MaxI(1, n));
    var o := Distribution.Plan(requested as real, n, dir, s1.priority, c.entities, r.soc, PvWatts(r.pv),
                               c.limits, true, s1.counters);
    (ApplyEffect(s1.(counters := o.counters), o.effect), o.commands)
  }

  /** `_pid_control_step(grid)`: the error is the negated grid power, so a
      surplus (negative grid power) charges and an import discharges. */
  function PidStep(c: Config, s: State, grid: real, r: Readings, now: real): (State, seq<Command>)
  {
    var error := -grid;
    var dt := Pid.TimeStep(s.prevTime, now);
    var derivative := Pid.Derivative(error, s.prevError, dt);
    var (output, integral) := PidOutput(c, s, error, dt, derivative, r.acPower);
    Actuate(c, s.(integral := integral, prevError := Some(error), prevTime := Some(now)), output, r, now)
  }

  /** What `_pid_control_step` does with the controller output: a zero
      output sets every battery to 0 W, any other drives the batteries. */
  function Actuate(c: Config, s: State, output: real, r: Readings, now: real): (State, seq<Command>)
  {
    if output == 0.0 then (s, [ZeroAll]) else PidDrive(c, s, output, r, now)
  }

  /** One `_async_update` cycle at time `now`: the new state and the battery
      commands. */
  function Cycle(c: Config, s: State, r: Readings, now: real): (State, seq<Command>)
  {
    if r.grid.None? then (s, [])
    else
      var history := BoundedDeque.Append(s.history, r.grid.value, Smoothing.DequeSize(c.smoothing));
      var grid := Smoothing.SmoothedValue(history, r.grid.value, c.smoothing);
      var realPower := Smoothing.RealPower(grid, c.entities, r.acPower);
      var w := Wallbox.Step(c.wallbox, s.wallbox, realPower, s.lastDirection, r.cableOn, r.wallboxPower, now);
      var s1 := s.(history := history, wallbox := w.state, wallboxActive := w.tookControl);
      if w.tookControl then (s1.(prevError := None, prevTime := None), w.commands)
      else if !c.ctMode && c.pidEnabled then PidBranch(c, s1, grid, realPower, r, now)
      else Staged(c, s1, realPower, r, now)
  }

  /** The PID branch of a cycle: a suspension holds the batteries at 0 W
      until the load crosses the threshold of its direction, which releases
      it and runs the PID step. */
  function PidBranch(c: Config, s: State, grid: real, realPower: real, r: Readings, now: real): (State, seq<Command>)
  {
    if s.suspended && !Pid.ShouldResume(s.suspendDirection, realPower, c.limits.minSurplus, c.limits.minConsumption)
    then (s, [ZeroAll])
    else
      var s1 := if s.suspended then s.(suspended := false, suspendDirection := Neutral) else s;
      PidStep(c, s1, grid, r, now)
  }

  /** The branch without the PID: re-rank on the real power, choose the
      number of batteries, then hand them over in CT mode or distribute. */
  function Staged(c: Config, s: State, realPower: real, r: Readings, now: real): (State, seq<Command>)
  {
    var s1 := Rerank(c, s, Some(realPower), None, r.soc, now);
    var n := Staging.DesiredCount(realPower, s1.lastDirection, c.stages, |s1.priority|, c.entities, r.acPower);
    if c.ctMode then (s1, [HandOverToAutomatic(n)])
    else
      var o := Distribution.Plan(realPower, n, s1.lastDirection, s1.priority, c.entities, r.soc,
                                 PvWatts(r.pv), c.limits, false, s1.counters);
      (s1.(counters := o.counters), o.commands)
  }

  /** An unreadable grid sensor skips the cycle: nothing changes and nothing
      is sent. */
  lemma UnreadableGridSkipsCycle(c: Config, s: State, r: Readings, now: real)
    requires r.grid.None?
    ensures Cycle(c, s, r, now) == (s, [])
  {
  }

  /** When the wallbox logic takes control, the batteries are held at 0 W, the
      PID timing is cleared (its integral kept), and ranking, staging
      counters and suspension are left alone. */
  lemma WallboxControlPreemptsBatteries(c: Config, s: State, r: Readings, now: real)
    requires r.grid.Some?
    ensures var (s', cmds) := Cycle(c, s, r, now);
      s'.wallboxActive ==>
        && cmds == [ZeroAll]
        && s'.prevError.None? && s'.prevTime.None?
        && s'.integral == s.integral && s'.priority == s.priority && s'.counters == s.counters
        && s'.suspended == s.suspended
  {
    var history := BoundedDeque.Append(s.history, r.grid.value, Smoothing.DequeSize(c.smoothing));
    var grid := Smoothing.SmoothedValue(history, r.grid.value, c.smoothing);
    var realPower := Smoothing.RealPower(grid, c.entities, r.acPower);
    var w := Wallbox.Step(c.wallbox, s.wallbox, realPower, s.lastDirection, r.cableOn, r.wallboxPower, now);
    Wallbox.TookControlIffZeroed(c.wallbox, s.wallbox, realPower, s.lastDirection, r.cableOn, r.wallboxPower, now);
    if w.tookControl {
      var s1 := s.(history := history, wallbox := w.state, wallboxActive := true);
      assert Cycle(c, s, r, now) == (s1.(prevError := None, prevTime := None), w.commands);
    } else {
      assert !Cycle(c, s, r, now).0.wallboxActive by {
        ActiveOnlyAfterTakingControl(c, s, r, now);
      }
    }
  }

  /** The wallbox flag of the new state is set only when the wallbox logic
      took control in this cycle. */
  lemma ActiveOnlyAfterTakingControl(c: Config, s: State, r: Readings, now: real)
    requires r.grid.Some?
    ensures var history := BoundedDeque.Append(s.history, r.grid.value, Smoothing.DequeSize(c.smoothing));
      var realPower := Smoothing.RealPower(Smoothing.SmoothedValue(history, r.grid.value, c.smoothing), c.entities, r.acPower);
      var w := Wallbox.Step(c.wallbox, s.wallbox, realPower, s.lastDirection, r.cableOn, r.wallboxPower, now);
      Cycle(c, s, r, now).0.wallboxActive == w.tookControl
  {
  }

  /** A suspended PID holds the batteries at 0 W, keeps its state and does not
      re-rank until the load crosses the threshold of its direction. */
  lemma SuspensionHoldsAtZero(c: Config, s: State, r: Readings, now: real)
    requires r.grid.Some? && !c.ctMode && c.pidEnabled && s.suspended
    ensures var (s', cmds) := Cycle(c, s, r, now);
      var history := BoundedDeque.Append(s.history, r.grid.value, Smoothing.DequeSize(c.smoothing));
      var realPower := Smoothing.RealPower(Smoothing.SmoothedValue(history, r.grid.value, c.smoothing), c.entities, r.acPower);
      !s'.wallboxActive && !Pid.ShouldResume(s.suspendDirection, realPower, c.limits.minSurplus, c.limits.minConsumption) ==>
        && cmds == [ZeroAll] && s'.suspended && s'.suspendDirection == s.suspendDirection
        && s'.integral == s.integral && s'.priority == s.priority && s'.counters == s.counters
  {
  }

  /** In CT mode the PID is not run even when enabled: unless the wallbox
      takes control, the cycle only hands between one and three batteries to
      their own control, and leaves the PID state and the below-minimum
      counters untouched. */
  lemma CtModeOnlyHandsOver(c: Config, s: State, r: Readings, now: real)
    requires r.grid.Some? && c.ctMode
    ensures var (s', cmds) := Cycle(c, s, r, now);
      !s'.wallboxActive ==>
        && |cmds| == 1 && cmds[0].HandOverToAutomatic? && 1 <= cmds[0].count <= 3
        && s'.integral == s.integral && s'.prevError == s.prevError && s'.prevTime == s.prevTime
        && s'.suspended == s.suspended && s'.counters == s.counters
  {
  }

  /** The PID step records the error and time of this step unless the
      distribution suspended or reset the controller, which clears them; a
      step that does not end in zeroing every battery always records them. */
  lemma PidStepRecordsError(c: Config, s: State, grid: real, r: Readings, now: real)
    ensures var (s', cmds) := PidStep(c, s, grid, r, now);
      && (|| (s'.prevError == Some(-grid) && s'.prevTime == Some(now))
          || (s'.prevError.None? && s'.prevTime.None? && s'.integral == 0.0))
      && (cmds != [ZeroAll] ==> s'.prevError == Some(-grid) && s'.prevTime == Some(now))
  {
  }

  /** Every power command of a PID step drives in the direction of the
      controller's output (charge for a positive output, discharge for a
      negative one), or is a 0 W NEUTRAL write; a zero output sends only
      ZeroAll. */
  lemma PidCommandsFollowOutputSign(c: Config, s: State, output: real, r: Readings, now: real)
    ensures var cmds := Actuate(c, s, output, r, now).1;
      && (output == 0.0 ==> cmds == [ZeroAll])
      && forall k :: 0 <= k < |cmds| && cmds[k].SetBattery? ==>
           || (cmds[k].dir == Neutral && cmds[k].power == 0)
           || (output > 0.0 && cmds[k].dir == Charge)
           || (output < 0.0 && cmds[k].dir == Discharge)
  {
    if output != 0.0 {
      DriveFollowsSign(c, s, output, r, now);
    }
  }

  lemma DriveFollowsSign(c: Config, s: State, output: real, r: Readings, now: real)
    requires output != 0.0
    ensures var cmds := PidDrive(c, s, output, r, now).1;
      forall k :: 0 <= k < |cmds| && cmds[k].SetBattery? ==>
        || (cmds[k].dir == Neutral && cmds[k].power == 0)
        || (output > 0.0 && cmds[k].dir == Charge)
        || (output < 0.0 && cmds[k].dir == Discharge)
  {
    var dir := if output > 0.0 then Charge else Discharge;
    var s1 := Rerank(c, s, None, Some(dir), r.soc, now).(lastDirection := dir);
    var n := Staging.DesiredCount(RoundHalfEven(Abs(output)) as real, dir, c.stages, |s1.priority|,
                                  c.entities, r.acPower);
    var requested := MinI(RoundHalfEven(Abs(output)), MaxTotal(c.limits, dir) * MaxI(1, n));
    Distribution.CommandsUseDirection(requested as real, n, dir, s1.priority, c.entities, r.soc,
                                      PvWatts(r.pv), c.limits, true, s1.counters);
  }

  /** The coordinator object: the configuration, the sub-objects that own the
      state of each concern, and the flag `_wallbox_is_active`. */
  class Coordinator {
    const config: Config
    const smoother: Smoothing.GridSmoother
    const ranker: Ranking.PriorityRanker
    const pid: Pid.PidState
    const distributor: Distribution.PowerDistributor
    const wallbox: Wallbox.WallboxArbiter
    var wallboxActive: bool

    ghost predicate Valid()
      reads this, smoother
    {
      && smoother.Valid() && smoother.smoothing == config.smoothing
      && wallbox.settings == config.wallbox
    }

    function Snapshot(): State
      reads this, smoother, ranker, pid, distributor, wallbox
    {
      State(smoother.history, ranker.priority, ranker.lastDirection, ranker.lastUpdate,
            pid.integral, pid.prevError, pid.prevTime, pid.suspended, pid.suspendDirection,
            Distribution.Counters(distributor.belowMinCharge, distributor.belowMinDischarge),
            wallbox.Snapshot(), wallboxActive)
    }

    constructor (config: Config)
      ensures Valid() && this.config == config
      ensures Snapshot() == State([], [], Neutral, None, 0.0, None, None, false, Neutral,
                                  Distribution.Counters(0, 0), Wallbox.Initial, false)
    {
      this.config := config;
      smoother := new Smoothing.GridSmoother(config.smoothing);
      ranker := new Ranking.PriorityRanker();
      pid := new Pid.PidState();
      distributor := new Distribution.PowerDistributor();
      wallbox := new Wallbox.WallboxArbiter(config.wallbox);
      wallboxActive := false;
    }

    /** `_get_effective_update_interval` for the configured interval. */
    function UpdateInterval(configured: int): (s: int)
      reads this
      ensures s == EffectiveUpdateInterval(configured, config.ctMode, wallboxActive)
    {
      if config.ctMode && !wallboxActive then CtModeInterval else configured
    }

    /** `_pid_control_step(grid)` at time `now`. */
    method PidControlStep(grid: real, r: Readings, now: real) returns (commands: seq<Command>)
      modifies ranker, pid, distributor
      ensures (Snapshot(), commands) == PidStep(config, old(Snapshot()), grid, r, now)
    {
      ghost var s := Snapshot();
      var output := Regulate(grid, r, now);
      assert PidStep(config, s, grid, r, now) == Actuate(config, Snapshot(), output, r, now);
      if output == 0.0 {
        return [ZeroAll];
      }
      commands := Drive(output, r, now);
    }

    /** The first half of `_pid_control_step`: the time step, the derivative,
        the output with the limits of the first staging call, and the record
        of this step's error and time. */
    method Regulate(grid: real, r: Readings, now: real) returns (output: real)
      modifies pid
      ensures var s := old(Snapshot());
        var error := -grid;
        var dt := Pid.TimeStep(s.prevTime, now);
        var (o, i) := PidOutput(config, s, error, dt, Pid.Derivative(error, s.prevError, dt), r.acPower);
        output == o && Snapshot() == s.(integral := i, prevError := Some(error), prevTime := Some(now))
    {
      ghost var s := Snapshot();
      var error := -grid;
      var dt := Pid.TimeStep(pid.prevTime, now);
      var derivative := Pid.Derivative(error, pid.prevError, dt);
      var raw := Pid.ComputeOutput(config.gains, pid.integral, error, derivative);
      var n := Staging.DesiredNumberOfBatteries(RoundHalfEven(Abs(raw)) as real, ranker.lastDirection, config.stages,
                                                |ranker.priority|, config.entities, r.acPower);
      var satPos := Saturation(config.limits.maxCharge, n);
      var satNeg := Saturation(config.limits.maxDischarge, n);
      output := pid.ApplyAntiWindup(config.gains, error, dt, derivative, satPos, satNeg);
      pid.prevError := Some(error);
      pid.prevTime := Some(now);
      assert (output, pid.integral) == PidOutput(config, s, error, dt, derivative, r.acPower);
    }

    /** The second half of `_pid_control_step` for a non-zero output. */
    method Drive(output: real, r: Readings, now: real) returns (commands: seq<Command>)
      requires output != 0.0
      modifies ranker, pid, distributor
      ensures (Snapshot(), commands) == PidDrive(config, old(Snapshot()), output, r, now)
    {
      var dir := if output > 0.0 then Charge else Discharge;
      ranker.UpdateIfNeeded(None, Some(dir), now, config.priorityMinutes, config.entities, r.soc,
                            config.limits.minSoc, config.limits.maxSoc);
      ranker.lastDirection := dir;
      var requested := RoundHalfEven(Abs(output));
      var n := Staging.DesiredNumberOfBatteries(requested as real, dir, config.stages, |ranker.priority|,
                                                config.entities, r.acPower);
      requested := MinI(requested, MaxTotal(config.limits, dir) * MaxI(1, n));
      var effect;
      commands, effect := distributor.Distribute(requested as real, n, dir, ranker.priority, config.entities, r.soc,
                                                 PvWatts(r.pv), config.limits, true);
      ApplyPidEffect(effect);
    }

    /** What the distribution asks of the PID: suspend it or reset it. */
    method ApplyPidEffect(effect: Distribution.PidEffect)
      modifies pid
      ensures Snapshot() == ApplyEffect(old(Snapshot()), effect)
    {
      match effect {
        case NoPidEffect =>
        case SuspendPid(d) =>
          pid.suspended := true;
          pid.suspendDirection := d;
          pid.Reset();
        case ResetPid =>
          pid.Reset();
      }
    }

    /** `_async_update` at time `now` with the readings of this cycle. */
    method Update(r: Readings, now: real) returns (commands: seq<Command>)
      requires Valid()
      modifies this, smoother, ranker, pid, distributor, wallbox
      ensures Valid()
      ensures (Snapshot(), commands) == Cycle(config, old(Snapshot()), r, now)
    {
      var grid := smoother.Smooth(r.grid);
      if grid.None? {
        return [];
      }
      var realPower := Smoothing.RealPower(grid.value, config.entities, r.acPower);
      var took;
      took, commands := wallbox.Handle(realPower, ranker.lastDirection, r.cableOn, r.wallboxPower, now);
      wallboxActive := took;
      if took {
        pid.prevError := None;
        pid.prevTime := None;
        return;
      }
      if !config.ctMode && config.pidEnabled {
        commands := RunPid(grid.value, realPower, r, now);
      } else {
        commands := RunStaged(realPower, r, now);
      }
    }

    /** The suspend branch of `_async_update`, then `_pid_control_step`. */
    method RunPid(grid: real, realPower: real, r: Readings, now: real) returns (commands: seq<Command>)
      modifies ranker, pid, distributor
      ensures (Snapshot(), commands) == PidBranch(config, old(Snapshot()), grid, realPower, r, now)
    {
      if pid.suspended {
        if !Pid.ShouldResume(pid.suspendDirection, realPower, config.limits.minSurplus, config.limits.minConsumption) {
          return [ZeroAll];
        }
        pid.suspended := false;
        pid.suspendDirection := Neutral;
      }
      commands := PidControlStep(grid, r, now);
    }

    /** Re-rank, stage, then hand over (CT mode) or distribute. */
    method RunStaged(realPower: real, r: Readings, now: real) returns (commands: seq<Command>)
      modifies ranker, distributor
      ensures (Snapshot(), commands) == Staged(config, old(Snapshot()), realPower, r, now)
    {
      ranker.UpdateIfNeeded(Some(realPower), None, now, config.priorityMinutes, config.entities, r.soc,
                            config.limits.minSoc, config.limits.maxSoc);
      var n := Staging.DesiredNumberOfBatteries(realPower, ranker.lastDirection, config.stages, |ranker.priority|,
                                                config.entities, r.acPower);
      if config.ctMode {
        commands := [HandOverToAutomatic(n)];
      } else {
        var effect;
        commands, effect := distributor.Distribute(realPower, n, ranker.lastDirection, ranker.priority,
                                                   config.entities, r.soc, PvWatts(r.pv), config.limits, false);
      }
    }
  }
}
