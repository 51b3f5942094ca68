/** Second-generation signal smoothing: the grid-power sample window
    (`_power_history`), its capacity (`_get_deque_size`), the smoothed grid power
    and the "real" house power that excludes the batteries. */
module Smoothing {
  import opened Common
  import BoundedDeque

  /** `_get_deque_size` for the entry it is given (the smoothing seconds, or the
      wallbox resume-check seconds): whole seconds, at least one sample. */
  function DequeSize(seconds: Setting): (n: nat)
    ensures n >= 1
    ensures WholeSeconds(seconds) >= 1 ==> n == WholeSeconds(seconds)
    ensures WholeSeconds(seconds) < 1 ==> n == 1
    ensures seconds.NonNumeric? || seconds.Unset? ==> n == 1
  {
    if WholeSeconds(seconds) >= 1 then WholeSeconds(seconds) else 1
  }

  /** Averaging is on exactly when the smoothing seconds read as a positive
      whole number; when it is off the window holds a single sample, and with
      1 s it is on over a window of one. */
  predicate SmoothingEnabled(seconds: Setting)
  {
    WholeSeconds(seconds) > 0
  }

  lemma SmoothingDisabledMeansSingleSample(seconds: Setting)
    ensures !SmoothingEnabled(seconds) ==> DequeSize(seconds) == 1
    ensures SmoothingEnabled(seconds) ==> DequeSize(seconds) == WholeSeconds(seconds)
  {
  }

  /** What `_get_smoothed_grid_power` returns once `sample` is in the window. */
  function SmoothedValue(window: seq<real>, sample: real, seconds: Setting): real
    requires |window| > 0
  {
    if SmoothingEnabled(seconds) then Mean(window) else sample
  }

  /** Sum of the readable battery AC powers, one term per distinct configured
      battery: the readings are collected in a dict keyed by battery, so a
      battery configured twice is counted once. */
  function BatteryTotal(entities: seq<BatteryId>, acPower: map<BatteryId, real>): real
  {
    if entities == [] then 0.0
    else
      var init, b := entities[..|entities| - 1], entities[|entities| - 1];
      BatteryTotal(init, acPower) + (if b in acPower && b !in init then acPower[b] else 0.0)
  }

  /** `_get_real_power`: the house power excluding the batteries. */
  function RealPower(grid: real, entities: seq<BatteryId>, acPower: map<BatteryId, real>): (r: real)
    ensures r == grid + BatteryTotal(entities, acPower)
  {
    var total := BatteryTotal(entities, acPower);
    if total != 0.0 then grid + total else grid
  }

  /** A battery whose AC power cannot be read does not move the real power. */
  lemma {:induction false} UnreadableBatteryIgnored(grid: real, entities: seq<BatteryId>, acPower: map<BatteryId, real>, b: BatteryId)
    requires b !in acPower
    ensures RealPower(grid, entities + [b], acPower) == RealPower(grid, entities, acPower)
  {
    assert (entities + [b])[..|entities|] == entities;
  }

  /** Configuring a battery a second time does not count its power twice. */
  lemma {:induction false} DuplicateCountedOnce(grid: real, entities: seq<BatteryId>, acPower: map<BatteryId, real>, b: BatteryId)
    requires b in entities
    ensures RealPower(grid, entities + [b], acPower) == RealPower(grid, entities, acPower)
  {
    assert (entities + [b])[..|entities|] == entities;
  }

  /** A newly configured, readable battery adds its AC power to the real power. */
  lemma {:induction false} NewBatteryAdds(grid: real, entities: seq<BatteryId>, acPower: map<BatteryId, real>, b: BatteryId)
    requires b !in entities && b in acPower
    ensures RealPower(grid, entities + [b], acPower) == RealPower(grid, entities, acPower) + acPower[b]
  {
    assert (entities + [b])[..|entities|] == entities;
  }

  /** The same battery listed twice with 100 W adds 100 W, not 200 W. */
  lemma RepeatedBatteryExample()
    ensures RealPower(0.0, ["a", "a"], map["a" := 100.0]) == 100.0
  {
    assert ["a", "a"][..1] == ["a"];
    assert ["a"][..0] == [];
  }

  /** With no battery readable, the real power is the grid power itself. */
  lemma {:induction false} NoReadableBatteries(grid: real, entities: seq<BatteryId>, acPower: map<BatteryId, real>)
    requires forall k :: 0 <= k < |entities| ==> entities[k] !in acPower
    ensures RealPower(grid, entities, acPower) == grid
  {
    if entities != [] {
      var init := entities[..|entities| - 1];
      NoReadableBatteries(grid, init, acPower);
    }
  }

  /** The grid-power sample window of the second-generation coordinator. */
  class GridSmoother {
    var history: seq<real>
    const capacity: nat
    const smoothing: Setting

    ghost predicate Valid()
      reads this
    {
      capacity == DequeSize(smoothing) && |history| <= capacity
    }

    constructor (smoothing: Setting)
      ensures Valid() && this.smoothing == smoothing && history == []
    {
      this.smoothing := smoothing;
      capacity := DequeSize(smoothing);
      history := [];
    }

    /** `_get_smoothed_grid_power` for one grid reading (None when the sensor is
        not configured, unavailable or unparseable). */
    method Smooth(reading: Option<real>) returns (r: Option<real>)
      requires Valid()
      modifies this`history
      ensures Valid()
      ensures reading.None? ==> r.None? && history == old(history)
      ensures reading.Some? ==>
        && history == BoundedDeque.Append(old(history), reading.value, capacity)
        && r == Some(SmoothedValue(history, reading.value, smoothing))
    {
      if reading.None? {
        return None;
      }
      var sample := reading.value;
      history := BoundedDeque.Append(history, sample, capacity);
      if SmoothingEnabled(smoothing) {
        r := Some(Mean(history));
      } else {
        r := Some(sample);
      }
    }
  }

  /** After any run of readable samples the window holds the newest
      min(capacity, count) of them, oldest first, ending in the latest. */
  lemma WindowAfterSamples(seconds: Setting, xs: seq<real>)
    requires |xs| > 0
    ensures var w := BoundedDeque.AppendAll([], xs, DequeSize(seconds));
      && w == BoundedDeque.Newest(xs, DequeSize(seconds))
      && |w| == (if |xs| <= DequeSize(seconds) then |xs| else DequeSize(seconds))
      && w[|w| - 1] == xs[|xs| - 1]
  {
    var cap := DequeSize(seconds);
    BoundedDeque.FromEmptyKeepsNewest(xs, cap);
    var w := BoundedDeque.Newest(xs, cap);
    assert w[|w| - 1] == xs[|xs| - 1];
  }

  /** After any run of readable samples the smoothed power lies between the
      smallest and the largest sample still in the window. */
  lemma SmoothedAfterSamples(seconds: Setting, xs: seq<real>)
    requires |xs| > 0
    ensures var w := BoundedDeque.AppendAll([], xs, DequeSize(seconds));
      |w| > 0 && SeqMin(w) <= SmoothedValue(w, xs[|xs| - 1], seconds) <= SeqMax(w)
  {
    WindowAfterSamples(seconds, xs);
    var w := BoundedDeque.AppendAll([], xs, DequeSize(seconds));
    SmoothedWithinWindow(w, xs[|xs| - 1], seconds);
  }

  /** The smoothed power of a window ending in the latest sample lies between
      the smallest and the largest sample of the window. */
  lemma SmoothedWithinWindow(w: seq<real>, sample: real, seconds: Setting)
    requires |w| > 0 && w[|w| - 1] == sample
    ensures SeqMin(w) <= SmoothedValue(w, sample, seconds) <= SeqMax(w)
  {
    MeanWithinRange(w);
  }
}
