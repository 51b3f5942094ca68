/** Values shared by both coordinator generations: optional readings, the power
    direction, configuration entries as the host stores them, the battery command
    log, and the numeric conversions the Python code relies on. */
module Common {

  /** A reading or timestamp that may be absent (an unavailable sensor, or a
      timestamp that is still `datetime.min`, i.e. "never"). */
  datatype Option<+T> = None | Some(value: T) {
    function GetOr(default: T): T {
      match this
      case Some(v) => v
      case None => default
    }
  }

  /** The direction the batteries are driven in (`PowerDir`: NEUTRAL = 0,
      CHARGE = 1, DISCHARGE = -1). */
  datatype PowerDir = Neutral | Charge | Discharge

  type BatteryId = string

  /** A numeric configuration entry: missing (or falsy), a number, or a value
      that `int(...)` cannot convert. */
  datatype Setting = Unset | Number(x: real) | NonNumeric

  /** One entry of the battery command log: `_set_all_batteries_to_zero()`,
      `_set_battery_power(id, power, direction)`, or the CT-mode hand-over
      `_disable_modbus_control_mode(count)` of the first `count` batteries of
      the priority list to their own control. */
  datatype Command =
    | ZeroAll
    | SetBattery(id: BatteryId, power: int, dir: PowerDir)
    | HandOverToAutomatic(count: int)

  function Abs(x: real): (r: real)
    ensures r >= 0.0 && (r == x || r == -x)
  {
    if x < 0.0 then -x else x
  }

  function MinR(a: real, b: real): (r: real)
    ensures r <= a && r <= b && (r == a || r == b)
  {
    if a <= b then a else b
  }

  function MaxR(a: real, b: real): (r: real)
    ensures r >= a && r >= b && (r == a || r == b)
  {
    if a >= b then a else b
  }

  /** The integer `min` and `max`: battery counts and watt set-points are
      Python ints, which Dafny does not mix with the real-valued ones above. */
  function MinI(a: int, b: int): (r: int)
    ensures r <= a && r <= b && (r == a || r == b)
  {
    if a <= b then a else b
  }

  function MaxI(a: int, b: int): (r: int)
    ensures r >= a && r >= b && (r == a || r == b)
  {
    if a >= b then a else b
  }

  /** Python's `max(-neg, min(pos, x))`. */
  function Clamp(x: real, neg: real, pos: real): (r: real)
    ensures -neg <= pos ==> -neg <= r <= pos
    ensures -neg <= x <= pos ==> r == x
    ensures x > pos && -neg <= pos ==> r == pos
    ensures x < -neg ==> r == -neg
  {
    MaxR(-neg, MinR(pos, x))
  }

  /** Python's `int(x)` on a float: truncation toward zero. */
  function Truncate(x: real): (r: int)
    ensures x >= 0.0 ==> 0 <= r && r as real <= x < r as real + 1.0
    ensures x < 0.0 ==> r <= 0 && r as real - 1.0 < x <= r as real
  {
    if x >= 0.0 then x.Floor else -((-x).Floor)
  }

  /** Python's `round(x)` on a float: to the nearest integer, ties to even. */
  function RoundHalfEven(x: real): (r: int)
    ensures x - 0.5 <= r as real <= x + 0.5
    ensures x >= 0.0 ==> r >= 0
    ensures x == x.Floor as real ==> r == x.Floor
  {
    var f := x.Floor;
    var frac := x - f as real;
    if frac < 0.5 then f
    else if frac > 0.5 then f + 1
    else if f % 2 == 0 then f
    else f + 1
  }

  /** Whole seconds from a configuration entry the way `int(value or 0)` reads
      it, with a non-numeric value read as 0 (the `except` fallback). */
  function WholeSeconds(s: Setting): (r: int)
    ensures s.Number? ==> r == Truncate(s.x)
    ensures !s.Number? ==> r == 0
  {
    match s
    case Number(x) => Truncate(x)
    case _ => 0
  }

  function Sum(s: seq<real>): real
  {
    if s == [] then 0.0 else Sum(s[..|s| - 1]) + s[|s| - 1]
  }

  function Mean(s: seq<real>): real
    requires |s| > 0
  {
    Sum(s) / |s| as real
  }

  /** Python's `min(...)` over a non-empty deque. */
  function SeqMin(s: seq<real>): (r: real)
    requires |s| > 0
    ensures forall k :: 0 <= k < |s| ==> r <= s[k]
  {
    if |s| == 1 then s[0] else MinR(SeqMin(s[..|s| - 1]), s[|s| - 1])
  }

  /** Python's `max(...)` over a non-empty deque. */
  function SeqMax(s: seq<real>): (r: real)
    requires |s| > 0
    ensures forall k :: 0 <= k < |s| ==> s[k] <= r
  {
    if |s| == 1 then s[0] else MaxR(SeqMax(s[..|s| - 1]), s[|s| - 1])
  }

  /** The mean of a window lies between its smallest and its largest sample. */
  lemma {:induction false} MeanWithinRange(s: seq<real>)
    requires |s| > 0
    ensures SeqMin(s) <= Mean(s) <= SeqMax(s)
  {
    var n := |s| as real;
    SumAtLeast(s, n, SeqMin(s));
    SumAtMost(s, n, SeqMax(s));
    DivideBounds(SeqMin(s), Sum(s), SeqMax(s), n);
  }

  /** A window whose samples all lie below a bound has its mean below it. */
  lemma {:induction false} MeanBelow(s: seq<real>, bound: real)
    requires |s| > 0 && forall k :: 0 <= k < |s| ==> s[k] < bound
    ensures Mean(s) < bound
  {
    MeanWithinRange(s);
    SeqMaxBelow(s, bound);
  }

  lemma {:induction false} SeqMaxBelow(s: seq<real>, bound: real)
    requires |s| > 0 && forall k :: 0 <= k < |s| ==> s[k] < bound
    ensures SeqMax(s) < bound
  {
    if |s| > 1 {
      SeqMaxBelow(s[..|s| - 1], bound);
    }
  }

  lemma {:induction false} SumAtLeast(s: seq<real>, n: real, lo: real)
    requires |s| > 0 && n == |s| as real && lo == SeqMin(s)
    ensures n * lo <= Sum(s)
  {
    if |s| == 1 {
      assert Sum(s) == Sum([]) + s[0];
    } else {
      var init, x := s[..|s| - 1], s[|s| - 1];
      assert Sum(s) == Sum(init) + x;
      SumAtLeast(init, |init| as real, SeqMin(init));
      ScaleStep(|init| as real, lo, SeqMin(init), x, Sum(init));
    }
  }

  lemma {:induction false} SumAtMost(s: seq<real>, n: real, hi: real)
    requires |s| > 0 && n == |s| as real && hi == SeqMax(s)
    ensures Sum(s) <= n * hi
  {
    if |s| == 1 {
      assert Sum(s) == Sum([]) + s[0];
    } else {
      var init, x := s[..|s| - 1], s[|s| - 1];
      assert Sum(s) == Sum(init) + x;
      SumAtMost(init, |init| as real, SeqMax(init));
      ScaleStep(|init| as real, -hi, -SeqMax(init), -x, -Sum(init));
    }
  }

  /** The arithmetic of one induction step: k copies of a bound below `total`
      and one more below `x` give k + 1 copies below `total + x`. */
  lemma ScaleStep(k: real, lo: real, loInit: real, x: real, total: real)
    requires k >= 0.0 && lo <= loInit && lo <= x
    requires k * loInit <= total
    ensures (k + 1.0) * lo <= total + x
  {
    assert k * loInit - k * lo == k * (loInit - lo);
  }

  /** Dividing a chain of inequalities by a positive count. */
  lemma DivideBounds(lo: real, total: real, hi: real, n: real)
    requires n > 0.0 && n * lo <= total <= n * hi
    ensures lo <= total / n <= hi
  {
    assert (n * lo) / n == lo && (n * hi) / n == hi;
  }
}
