/** Second-generation wallbox arbitration (`_handle_wallbox_logic`): keep the
    batteries from discharging into a charging car, and pause the batteries
    for a while so that surplus solar power goes to the car instead. */
module Wallbox {
  import opened Common
  import BoundedDeque
  import Smoothing

  /** The wallbox power sensor state: unreadable (the power counts as 0 W),
      or a value with its unit (`kW` is scaled to W). */
  datatype PowerReading = Unreadable | Reading(value: real, kilowatts: bool)

  /** `wallbox_max_surplus`: missing, not convertible to a number, or a
      number of watts. */
  datatype SurplusSetting = SurplusMissing | SurplusInvalid | Surplus(watts: real)

  /** The wallbox configuration. `sensorsConfigured` says whether both the
      power sensor and the cable sensor are non-empty entity ids;
      `stabilityThreshold`, `startDelay` and `retryMinutes` are the resolved
      values (the defaults apply where the entries are missing). */
  datatype Settings = Settings(sensorsConfigured: bool, maxSurplus: SurplusSetting,
                               stabilityThreshold: real, startDelay: int, retryMinutes: real,
                               resumeCheckSeconds: Setting)

  /** The wallbox fields of the coordinator; `lastAttempt` and `waitStart`
      are None for "never" (`datetime.min` and `None`). */
  datatype State = State(paused: bool, cableWasOn: bool, history: seq<real>,
                         lastAttempt: Option<real>, waitStart: Option<real>)

  const Initial: State := State(false, false, [], None, None)

  /** The car is taken to be charging above 100 W. */
  const ChargingThreshold: real := 100.0

  /** What one call returns: whether the wallbox logic took control, the
      battery commands it issued, and its state afterwards. */
  datatype Result = Result(tookControl: bool, commands: seq<Command>, state: State)

  function HistoryCapacity(settings: Settings): (n: nat)
    ensures n >= 1
  {
    Smoothing.DequeSize(settings.resumeCheckSeconds)
  }

  /** The wallbox power in W: 0 when unreadable. */
  function WallboxWatts(r: PowerReading): real
  {
    match r
    case Unreadable => 0.0
    case Reading(v, kw) => if kw then v * 1000.0 else v
  }

  /** A new pause may start on the first attempt or once the retry cooldown
      has passed since the last one. */
  predicate CooldownOver(lastAttempt: Option<real>, now: real, retryMinutes: real)
  {
    lastAttempt.None? || now - lastAttempt.value > retryMinutes * 60.0
  }

  /** The spread of a full history: largest minus smallest sample. */
  function Spread(h: seq<real>): real
    requires |h| > 0
  {
    SeqMax(h) - SeqMin(h)
  }

  function Release(s: State): State
  {
    s.(paused := false, history := [], waitStart := None)
  }

  /** Hold the batteries at 0 W. */
  function Hold(s: State): Result
  {
    Result(true, [ZeroAll], s)
  }

  function Pass(s: State): Result
  {
    Result(false, [], s)
  }

  /** `_handle_wallbox_logic(real_power)` at time `now`, with the cable state
      (`cableOn`: readable and "on"), the wallbox power reading and the
      direction the batteries were last driven in. */
  function Step(settings: Settings, s: State, realPower: real, lastDir: PowerDir,
                cableOn: bool, reading: PowerReading, now: real): (r: Result)
    ensures r.tookControl ==> cableOn && settings.sensorsConfigured && settings.maxSurplus.Surplus?
    ensures r.state.paused ==>
      || (cableOn && settings.sensorsConfigured && settings.maxSurplus.Surplus?)
      || (settings.maxSurplus.SurplusInvalid? && r.state == s)
  {
    if !settings.sensorsConfigured || settings.maxSurplus.SurplusMissing? then
      Pass(s.(paused := false, cableWasOn := false))
    else if settings.maxSurplus.SurplusInvalid? then Pass(s)
    else if !cableOn then
      if s.paused || s.cableWasOn then Pass(Initial) else Pass(s)
    else
      var maxSurplus := settings.maxSurplus.watts;
      var wb := WallboxWatts(reading);
      var cap := HistoryCapacity(settings);
      var h := BoundedDeque.Append(s.history, wb, cap);
      var s1 := s.(cableWasOn := true, history := h);
      if wb > ChargingThreshold && lastDir == Discharge then Hold(s1)
      else if s1.paused then PausedStep(settings, s1, maxSurplus, realPower, wb, cap, now)
      else if realPower < -maxSurplus && wb <= ChargingThreshold then
        if CooldownOver(s1.lastAttempt, now, settings.retryMinutes) then
          Hold(s1.(lastAttempt := Some(now), waitStart := Some(now), paused := true))
        else Pass(s1)
      else if realPower - wb < -maxSurplus && wb >= ChargingThreshold then
        if CooldownOver(s1.lastAttempt, now, settings.retryMinutes) then
          Hold(s1.(lastAttempt := Some(now), waitStart := Some(now), paused := true))
        else Pass(s1)
      else Pass(s1)
  }

  /** The rules checked while a pause is active, in the order of the source:
      the surplus is gone and the car does not charge; the start delay ran
      out; the car charges steadily (a full history with a spread below the
      threshold); the car does not charge (start the delay timer). The
      source repeats the start-delay check after starting the timer; with one
      clock reading per call that check cannot fire (an expired timer was
      already released by the second rule), so it is not repeated here. */
  function PausedStep(settings: Settings, s: State, maxSurplus: real, realPower: real, wb: real,
                      cap: nat, now: real): (r: Result)
    ensures r.state.cableWasOn == s.cableWasOn && r.state.lastAttempt == s.lastAttempt
    ensures s.paused && !r.state.paused ==> !r.tookControl && r.state.history == []
  {
    if realPower >= -maxSurplus && wb <= ChargingThreshold then Pass(Release(s))
    else if s.waitStart.Some? && now - s.waitStart.value > settings.startDelay as real then Pass(Release(s))
    else
      var s2 := if wb > ChargingThreshold then s.(waitStart := None) else s;
      if wb > ChargingThreshold && |s2.history| == cap && |s2.history| > 0
         && Spread(s2.history) < settings.stabilityThreshold then
        Pass(s2.(paused := false, history := []))
      else if wb < ChargingThreshold then
        if s2.waitStart.None? then Hold(s2.(waitStart := Some(now))) else Hold(s2)
      else Hold(s2)
  }

  /** The state invariant: a pause only exists with the cable plugged in and
      after an attempt was stamped, and the history never exceeds its
      capacity. */
  predicate Consistent(settings: Settings, s: State)
  {
    && (s.paused ==> s.cableWasOn && s.lastAttempt.Some?)
    && |s.history| <= HistoryCapacity(settings)
  }

  lemma StepKeepsConsistent(settings: Settings, s: State, realPower: real, lastDir: PowerDir,
                            cableOn: bool, reading: PowerReading, now: real)
    requires Consistent(settings, s)
    ensures Consistent(settings, Step(settings, s, realPower, lastDir, cableOn, reading, now).state)
  {
    if settings.sensorsConfigured && settings.maxSurplus.Surplus? && cableOn {
      var wb := WallboxWatts(reading);
      var cap := HistoryCapacity(settings);
      var s1 := s.(cableWasOn := true, history := BoundedDeque.Append(s.history, wb, cap));
      if s1.paused {
        PausedStepKeepsConsistent(settings, s1, settings.maxSurplus.watts, realPower, wb, cap, now);
      }
    }
  }

  lemma PausedStepKeepsConsistent(settings: Settings, s: State, maxSurplus: real, realPower: real, wb: real,
                                  cap: nat, now: real)
    requires Consistent(settings, s) && s.paused && cap == HistoryCapacity(settings)
    ensures Consistent(settings, PausedStep(settings, s, maxSurplus, realPower, wb, cap, now).state)
  {
  }

  /** The logic takes control exactly when it holds the batteries at 0 W;
      otherwise it issues no command. */
  lemma TookControlIffZeroed(settings: Settings, s: State, realPower: real, lastDir: PowerDir,
                             cableOn: bool, reading: PowerReading, now: real)
    ensures var r := Step(settings, s, realPower, lastDir, cableOn, reading, now);
      (r.tookControl <==> r.commands == [ZeroAll]) && (!r.tookControl <==> r.commands == [])
  {
    if settings.sensorsConfigured && settings.maxSurplus.Surplus? && cableOn {
      var wb := WallboxWatts(reading);
      var cap := HistoryCapacity(settings);
      var s1 := s.(cableWasOn := true, history := BoundedDeque.Append(s.history, wb, cap));
      if s1.paused {
        PausedTookControlIffZeroed(settings, s1, settings.maxSurplus.watts, realPower, wb, cap, now);
      }
    }
  }

  lemma PausedTookControlIffZeroed(settings: Settings, s: State, maxSurplus: real, realPower: real, wb: real,
                                   cap: nat, now: real)
    ensures var r := PausedStep(settings, s, maxSurplus, realPower, wb, cap, now);
      (r.tookControl <==> r.commands == [ZeroAll]) && (!r.tookControl <==> r.commands == [])
  {
  }

  /** Without both sensors or a maximum surplus the logic never takes
      control: it clears the pause and the cable flag and leaves the history
      and the timers alone. */
  lemma IncompleteConfigurationClearsPause(settings: Settings, s: State, realPower: real, lastDir: PowerDir,
                                           cableOn: bool, reading: PowerReading, now: real)
    requires !settings.sensorsConfigured || settings.maxSurplus.SurplusMissing?
    ensures var r := Step(settings, s, realPower, lastDir, cableOn, reading, now);
      && !r.tookControl && r.commands == []
      && !r.state.paused && !r.state.cableWasOn
      && r.state.history == s.history && r.state.lastAttempt == s.lastAttempt && r.state.waitStart == s.waitStart
  {
  }

  /** Unplugging the cable ends every wallbox state: no pause, no history, no
      timers, and the cooldown is forgotten (or nothing changes when there
      was nothing to end). */
  lemma UnplugResets(settings: Settings, s: State, realPower: real, lastDir: PowerDir,
                     reading: PowerReading, now: real)
    requires settings.sensorsConfigured && settings.maxSurplus.Surplus?
    ensures var r := Step(settings, s, realPower, lastDir, false, reading, now);
      && !r.tookControl
      && !r.state.paused
      && (s.paused || s.cableWasOn ==> r.state == Initial)
      && (!s.paused && !s.cableWasOn ==> r.state == s)
  {
  }

  /** A pause starts only from the unpaused state, with the cable plugged in,
      once the cooldown is over and with surplus beyond the maximum (the car
      idle, or the surplus beyond what it draws); it stamps both timers with
      the current time and zeroes the batteries. */
  lemma PauseStartsOnlyAfterCooldown(settings: Settings, s: State, realPower: real, lastDir: PowerDir,
                                     cableOn: bool, reading: PowerReading, now: real)
    requires !s.paused
    requires Step(settings, s, realPower, lastDir, cableOn, reading, now).state.paused
    ensures var r := Step(settings, s, realPower, lastDir, cableOn, reading, now);
      var wb := WallboxWatts(reading);
      && cableOn && settings.maxSurplus.Surplus?
      && CooldownOver(s.lastAttempt, now, settings.retryMinutes)
      && ((realPower < -settings.maxSurplus.watts && wb <= ChargingThreshold)
          || (realPower - wb < -settings.maxSurplus.watts && wb >= ChargingThreshold))
      && r.state.lastAttempt == Some(now) && r.state.waitStart == Some(now)
      && r.tookControl && r.commands == [ZeroAll]
  {
  }

  /** Conversely, a pause does start whenever those conditions hold: from the
      unpaused state with the cable plugged in, no discharge veto, the
      cooldown over and surplus beyond the maximum (the car idle, or the
      surplus beyond what it draws), the logic pauses, stamps both timers with
      the current time and zeroes the batteries. */
  lemma PauseStartsWhenSurplus(settings: Settings, s: State, realPower: real, lastDir: PowerDir,
                               reading: PowerReading, now: real)
    requires settings.sensorsConfigured && settings.maxSurplus.Surplus?
    requires !s.paused
    requires !(WallboxWatts(reading) > ChargingThreshold && lastDir == Discharge)
    requires CooldownOver(s.lastAttempt, now, settings.retryMinutes)
    requires var wb := WallboxWatts(reading);
      || (realPower < -settings.maxSurplus.watts && wb <= ChargingThreshold)
      || (realPower - wb < -settings.maxSurplus.watts && wb >= ChargingThreshold)
    ensures var r := Step(settings, s, realPower, lastDir, true, reading, now);
      && r.state.paused && r.tookControl && r.commands == [ZeroAll]
      && r.state.lastAttempt == Some(now) && r.state.waitStart == Some(now)
  {
  }

  /** Within the cooldown no new pause starts, whatever the surplus. */
  lemma CooldownBlocksNewPause(settings: Settings, s: State, realPower: real, lastDir: PowerDir,
                               cableOn: bool, reading: PowerReading, now: real, t: real)
    requires !s.paused && s.lastAttempt == Some(t) && now - t <= settings.retryMinutes * 60.0
    ensures !Step(settings, s, realPower, lastDir, cableOn, reading, now).state.paused
  {
  }

  /** A car drawing more than 100 W while the batteries discharge always makes
      the logic hold the batteries at 0 W, without touching the pause. */
  lemma DischargeVeto(settings: Settings, s: State, realPower: real, reading: PowerReading, now: real)
    requires settings.sensorsConfigured && settings.maxSurplus.Surplus?
    requires WallboxWatts(reading) > ChargingThreshold
    ensures var r := Step(settings, s, realPower, Discharge, true, reading, now);
      r.tookControl && r.commands == [ZeroAll] && r.state.paused == s.paused
      && r.state.lastAttempt == s.lastAttempt && r.state.waitStart == s.waitStart
  {
  }

  /** While paused (and without the discharge veto), the pause ends exactly
      when the surplus is gone with the car idle, when the start delay has run
      out, or when the car charges steadily; otherwise the batteries stay at
      0 W. */
  lemma PauseEndsExactlyWhen(settings: Settings, s: State, realPower: real, lastDir: PowerDir,
                             reading: PowerReading, now: real)
    requires settings.sensorsConfigured && settings.maxSurplus.Surplus?
    requires s.paused
    requires !(WallboxWatts(reading) > ChargingThreshold && lastDir == Discharge)
    ensures var r := Step(settings, s, realPower, lastDir, true, reading, now);
      var wb := WallboxWatts(reading);
      var h := BoundedDeque.Append(s.history, wb, HistoryCapacity(settings));
      && (!r.state.paused <==>
            || (realPower >= -settings.maxSurplus.watts && wb <= ChargingThreshold)
            || (s.waitStart.Some? && now - s.waitStart.value > settings.startDelay as real)
            || (wb > ChargingThreshold && |h| == HistoryCapacity(settings) && Spread(h) < settings.stabilityThreshold))
      && (r.state.paused <==> r.tookControl)
      && (!r.state.paused ==> r.state.history == [])
  {
    var cap := HistoryCapacity(settings);
    var h := BoundedDeque.Append(s.history, WallboxWatts(reading), cap);
    assert |h| > 0;
  }

  /** The wallbox fields of the second-generation coordinator. */
  class WallboxArbiter {
    var paused: bool
    var cableWasOn: bool
    var history: seq<real>
    var lastAttempt: Option<real>
    var waitStart: Option<real>
    const settings: Settings

    function Snapshot(): State
      reads this
    {
      State(paused, cableWasOn, history, lastAttempt, waitStart)
    }

    constructor (settings: Settings)
      ensures Snapshot() == Initial && this.settings == settings
    {
      this.settings := settings;
      paused := false;
      cableWasOn := false;
      history := [];
      lastAttempt := None;
      waitStart := None;
    }

    /** Clear the pause, the history and the start-delay timer. */
    method ReleasePause()
      modifies this`paused, this`history, this`waitStart
      ensures Snapshot() == Release(old(Snapshot()))
    {
      paused := false;
      history := [];
      waitStart := None;
    }

    /** Start a pause at `now`: stamp the cooldown and the start delay. */
    method StartPause(now: real)
      modifies this`paused, this`lastAttempt, this`waitStart
      ensures Snapshot() == old(Snapshot()).(lastAttempt := Some(now), waitStart := Some(now), paused := true)
    {
      lastAttempt := Some(now);
      waitStart := Some(now);
      paused := true;
    }

    /** The rules checked while a pause is active. */
    method HandlePaused(maxSurplus: real, realPower: real, wb: real, cap: nat, now: real)
      returns (tookControl: bool, commands: seq<Command>)
      modifies this`paused, this`history, this`waitStart
      ensures Result(tookControl, commands, Snapshot())
        == PausedStep(settings, old(Snapshot()), maxSurplus, realPower, wb, cap, now)
    {
      tookControl, commands := false, [];
      if realPower >= -maxSurplus && wb <= ChargingThreshold {
        ReleasePause();
        return;
      }
      if waitStart.Some? && now - waitStart.value > settings.startDelay as real {
        ReleasePause();
        return;
      }
      if wb > ChargingThreshold {
        waitStart := None;
        if |history| == cap && |history| > 0 && Spread(history) < settings.stabilityThreshold {
          paused := false;
          history := [];
          return;
        }
      }
      if wb < ChargingThreshold {
        if waitStart.None? {
          waitStart := Some(now);
        }
      }
      return true, [ZeroAll];
    }

    /** `_handle_wallbox_logic`: updates the wallbox fields in place. */
    method Handle(realPower: real, lastDir: PowerDir, cableOn: bool, reading: PowerReading, now: real)
      returns (tookControl: bool, commands: seq<Command>)
      modifies this`paused, this`cableWasOn, this`history, this`lastAttempt, this`waitStart
      ensures Result(tookControl, commands, Snapshot())
        == Step(settings, old(Snapshot()), realPower, lastDir, cableOn, reading, now)
    {
      tookControl, commands := false, [];
      if !settings.sensorsConfigured || settings.maxSurplus.SurplusMissing? {
        paused := false;
        cableWasOn := false;
        return;
      }
      if settings.maxSurplus.SurplusInvalid? {
        return;
      }
      var maxSurplus := settings.maxSurplus.watts;
      if !cableOn {
        if paused || cableWasOn {
          paused := false;
          history := [];
          waitStart := None;
          cableWasOn := false;
          lastAttempt := None;
        }
        return;
      }
      cableWasOn := true;
      var wb := WallboxWatts(reading);
      var cap := HistoryCapacity(settings);
      history := BoundedDeque.Append(history, wb, cap);

      if wb > ChargingThreshold && lastDir == Discharge {
        return true, [ZeroAll];
      }
      if paused {
        tookControl, commands := HandlePaused(maxSurplus, realPower, wb, cap, now);
        return;
      }
      if realPower < -maxSurplus && wb <= ChargingThreshold {
        if CooldownOver(lastAttempt, now, settings.retryMinutes) {
          StartPause(now);
          return true, [ZeroAll];
        }
      } else if realPower - wb < -maxSurplus && wb >= ChargingThreshold {
        if CooldownOver(lastAttempt, now, settings.retryMinutes) {
          StartPause(now);
          return true, [ZeroAll];
        }
      }
    }
  }
}
