/** `collections.deque(maxlen=cap)`, as both coordinators use it for their sample
    windows: appending to a full deque drops the oldest entry. */
module BoundedDeque {

  /** The newest `cap` entries of `s` (all of them when there are fewer). */
  function Newest<T>(s: seq<T>, cap: nat): (r: seq<T>)
    ensures |r| == if |s| <= cap then |s| else cap
    ensures forall k :: 0 <= k < |r| ==> r[k] == s[|s| - |r| + k]
  {
    if |s| <= cap then s else s[|s| - cap..]
  }

  /** `deque.append(x)` on a deque of capacity `cap`. */
  function Append<T>(h: seq<T>, x: T, cap: nat): seq<T>
  {
    Newest(h + [x], cap)
  }

  /** Appending one entry after another, as successive update cycles do. */
  function AppendAll<T>(h: seq<T>, xs: seq<T>, cap: nat): seq<T>
    decreases |xs|
  {
    if xs == [] then h else AppendAll(Append(h, xs[0], cap), xs[1..], cap)
  }

  /** However many samples have been appended, a deque that started empty (or
      within its capacity) holds exactly the newest `cap` of everything it was
      given, oldest first. */
  lemma {:induction false} AppendAllKeepsNewest<T>(h: seq<T>, xs: seq<T>, cap: nat)
    requires cap >= 1 && |h| <= cap
    ensures AppendAll(h, xs, cap) == Newest(h + xs, cap)
    decreases |xs|
  {
    if xs == [] {
      assert h + xs == h;
    } else {
      var h' := Append(h, xs[0], cap);
      AppendAllKeepsNewest(h', xs[1..], cap);
      NewestAppendAll(h + [xs[0]], xs[1..], cap);
      assert h + [xs[0]] + xs[1..] == h + xs;
    }
  }

  /** A deque that started empty holds the newest `cap` samples given. */
  lemma FromEmptyKeepsNewest<T>(xs: seq<T>, cap: nat)
    requires cap >= 1
    ensures AppendAll([], xs, cap) == Newest(xs, cap)
  {
    AppendAllKeepsNewest([], xs, cap);
    assert [] + xs == xs;
  }

  /** Trimming the history to its newest `cap` entries before further appends
      does not change the newest `cap` entries afterwards. */
  lemma {:induction false} NewestAppendAll<T>(s: seq<T>, ys: seq<T>, cap: nat)
    requires cap >= 1
    ensures Newest(Newest(s, cap) + ys, cap) == Newest(s + ys, cap)
    decreases |ys|
  {
    if ys == [] {
      assert Newest(s, cap) + ys == Newest(s, cap) && s + ys == s;
    } else {
      var n := Newest(s, cap);
      var a, b := n + ys, s + ys;
      var ra, rb := Newest(a, cap), Newest(b, cap);
      assert |ra| == |rb|;
      forall k | 0 <= k < |ra| ensures ra[k] == rb[k] {
        var ia, ib := |a| - |ra| + k, |b| - |rb| + k;
        assert ra[k] == a[ia] && rb[k] == b[ib];
        if ia >= |n| {
          assert a[ia] == ys[ia - |n|];
          assert ib - |s| == ia - |n|;
          assert b[ib] == ys[ib - |s|];
        } else {
          assert ib == |s| - |n| + ia;
          assert a[ia] == n[ia] == s[ib];
          assert b[ib] == s[ib];
        }
      }
    }
  }
}
