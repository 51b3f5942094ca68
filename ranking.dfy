/** Battery ranking (`_calculate_battery_priority`), shared by both coordinator
    generations, and the second generation's re-rank gate
    (`_update_battery_priority_if_needed`). */
module Ranking {
  import opened Common

  /** An entry of `_battery_priority`: `{"id": ..., "soc": ...}`. */
  datatype Ranked = Ranked(id: BatteryId, soc: real)

  /** May a battery at this state of charge take part in `dir`? (Strictly below
      the maximum to charge, strictly above the minimum to discharge.) */
  predicate Admits(dir: PowerDir, soc: real, minSoc: real, maxSoc: real)
  {
    (dir == Charge && soc < maxSoc) || (dir == Discharge && soc > minSoc)
  }

  /** The `available_batteries` list: configured batteries whose SoC is readable
      and admitted under `dir`, in configuration order. */
  function Available(entities: seq<BatteryId>, soc: map<BatteryId, real>, dir: PowerDir,
                     minSoc: real, maxSoc: real): (r: seq<Ranked>)
    ensures |r| <= |entities|
    ensures forall k :: 0 <= k < |r| ==>
      r[k].id in entities && r[k].id in soc && r[k].soc == soc[r[k].id] && Admits(dir, r[k].soc, minSoc, maxSoc)
  {
    if entities == [] then []
    else
      var init, b := entities[..|entities| - 1], entities[|entities| - 1];
      var rest := Available(init, soc, dir, minSoc, maxSoc);
      if b in soc && Admits(dir, soc[b], minSoc, maxSoc) then rest + [Ranked(b, soc[b])] else rest
  }

  /** Every configured battery with a readable, admitted SoC is available. */
  lemma {:induction false} AvailableComplete(entities: seq<BatteryId>, soc: map<BatteryId, real>, dir: PowerDir,
                                             minSoc: real, maxSoc: real, b: BatteryId)
    requires b in entities && b in soc && Admits(dir, soc[b], minSoc, maxSoc)
    ensures Ranked(b, soc[b]) in Available(entities, soc, dir, minSoc, maxSoc)
  {
    var init := entities[..|entities| - 1];
    if entities[|entities| - 1] != b {
      assert b in init;
      AvailableComplete(init, soc, dir, minSoc, maxSoc, b);
    }
  }

  /** The battery ids named by a ranking, with their multiplicity. */
  function IdBag(s: seq<Ranked>): multiset<BatteryId>
  {
    multiset(seq(|s|, i requires 0 <= i < |s| => s[i].id))
  }

  lemma IdBagCons(x: Ranked, t: seq<Ranked>)
    ensures IdBag([x] + t) == multiset{x.id} + IdBag(t)
  {
    var ids := seq(|t|, i requires 0 <= i < |t| => t[i].id);
    assert seq(|t| + 1, i requires 0 <= i < |t| + 1 => ([x] + t)[i].id) == [x.id] + ids;
  }

  lemma IdBagSnoc(t: seq<Ranked>, x: Ranked)
    ensures IdBag(t + [x]) == IdBag(t) + multiset{x.id}
  {
    var ids := seq(|t|, i requires 0 <= i < |t| => t[i].id);
    assert seq(|t| + 1, i requires 0 <= i < |t| + 1 => (t + [x])[i].id) == ids + [x.id];
  }

  /** The available list names each configured battery at most as often as the
      configuration does. */
  lemma {:induction false} AvailableIdsSubMultiset(entities: seq<BatteryId>, soc: map<BatteryId, real>, dir: PowerDir,
                                                   minSoc: real, maxSoc: real)
    ensures IdBag(Available(entities, soc, dir, minSoc, maxSoc)) <= multiset(entities)
  {
    if entities != [] {
      var init, b := entities[..|entities| - 1], entities[|entities| - 1];
      AvailableIdsSubMultiset(init, soc, dir, minSoc, maxSoc);
      assert multiset(entities) == multiset(init) + multiset{b} by {
        assert entities == init + [b];
      }
      var rest := Available(init, soc, dir, minSoc, maxSoc);
      if b in soc && Admits(dir, soc[b], minSoc, maxSoc) {
        var x := Ranked(b, soc[b]);
        IdBagSnoc(rest, x);
      }
    }
  }

  /** `a` may stand before `b`: ascending SoC, or descending when `descending`. */
  predicate InOrder(a: Ranked, b: Ranked, descending: bool)
  {
    if descending then a.soc >= b.soc else a.soc <= b.soc
  }

  predicate Sorted(s: seq<Ranked>, descending: bool)
  {
    forall i, j :: 0 <= i < j < |s| ==> InOrder(s[i], s[j], descending)
  }

  /** Insert `x` before the first entry it may precede, so that among equal
      SoC values `x` keeps its place in front (a stable sort). */
  function Insert(x: Ranked, t: seq<Ranked>, descending: bool): (r: seq<Ranked>)
    requires Sorted(t, descending)
    ensures Sorted(r, descending)
    ensures |r| == |t| + 1 && (r[0] == x || (t != [] && r[0] == t[0]))
  {
    if t == [] then [x]
    else if InOrder(x, t[0], descending) then
      [x] + t
    else
      var rest := Insert(x, t[1..], descending);
      assert InOrder(t[0], rest[0], descending);
      [t[0]] + rest
  }

  /** Insertion adds exactly the inserted entry. */
  lemma {:induction false} InsertPermutes(x: Ranked, t: seq<Ranked>, descending: bool)
    requires Sorted(t, descending)
    ensures multiset(Insert(x, t, descending)) == multiset(t) + multiset{x}
  {
    if t != [] && !InOrder(x, t[0], descending) {
      InsertPermutes(x, t[1..], descending);
      assert t == [t[0]] + t[1..];
    }
  }

  /** Python's `sorted(..., key=soc, reverse=descending)`: a stable sort. */
  function SortBySoc(s: seq<Ranked>, descending: bool): (r: seq<Ranked>)
    ensures Sorted(r, descending)
  {
    if s == [] then []
    else Insert(s[0], SortBySoc(s[1..], descending), descending)
  }

  /** Sorting is a permutation: the same entries, as often as before. */
  lemma {:induction false} SortPermutes(s: seq<Ranked>, descending: bool)
    ensures multiset(SortBySoc(s, descending)) == multiset(s)
  {
    if s != [] {
      SortPermutes(s[1..], descending);
      InsertPermutes(s[0], SortBySoc(s[1..], descending), descending);
      assert s == [s[0]] + s[1..];
    }
  }

  /** The entries whose SoC is `v`, in their order in `s`. */
  function WithSoc(s: seq<Ranked>, v: real): seq<Ranked>
  {
    if s == [] then [] else (if s[0].soc == v then [s[0]] else []) + WithSoc(s[1..], v)
  }

  lemma WithSocCons(a: Ranked, t: seq<Ranked>, v: real)
    ensures WithSoc([a] + t, v) == (if a.soc == v then [a] else []) + WithSoc(t, v)
  {
    assert ([a] + t)[1..] == t;
  }

  /** Insertion puts `x` in front of every entry with the same SoC. */
  lemma {:induction false} InsertKeepsOrderOfTies(x: Ranked, t: seq<Ranked>, descending: bool, v: real)
    requires Sorted(t, descending)
    ensures WithSoc(Insert(x, t, descending), v) == (if x.soc == v then [x] else []) + WithSoc(t, v)
  {
    if t == [] {
      WithSocCons(x, [], v);
    } else if InOrder(x, t[0], descending) {
      WithSocCons(x, t, v);
    } else {
      var t0, tail := t[0], t[1..];
      var rest := Insert(x, tail, descending);
      assert Insert(x, t, descending) == [t0] + rest;
      assert x.soc != t0.soc;
      InsertKeepsOrderOfTies(x, tail, descending, v);
      WithSocCons(t0, rest, v);
      assert t == [t0] + tail;
      WithSocCons(t0, tail, v);
    }
  }

  /** `sorted` is stable: for every SoC value, the batteries with that SoC
      come out in the order they went in. */
  lemma {:induction false} SortKeepsOrderOfTies(s: seq<Ranked>, descending: bool, v: real)
    ensures WithSoc(SortBySoc(s, descending), v) == WithSoc(s, v)
  {
    if s != [] {
      SortKeepsOrderOfTies(s[1..], descending, v);
      InsertKeepsOrderOfTies(s[0], SortBySoc(s[1..], descending), descending, v);
    }
  }

  /** Two batteries with equal SoC, the first configured first, are ranked
      in that order among others with different SoC. */
  lemma TiesExample()
    ensures SortBySoc([Ranked("a", 50.0), Ranked("b", 20.0), Ranked("c", 50.0)], false)
         == [Ranked("b", 20.0), Ranked("a", 50.0), Ranked("c", 50.0)]
  {
    var s := [Ranked("a", 50.0), Ranked("b", 20.0), Ranked("c", 50.0)];
    assert s[1..][1..] == [Ranked("c", 50.0)];
    assert SortBySoc([Ranked("c", 50.0)], false) == [Ranked("c", 50.0)];
    assert SortBySoc(s[1..], false) == [Ranked("b", 20.0), Ranked("c", 50.0)];
  }

  /** `_calculate_battery_priority(dir)`: the new `_battery_priority`. */
  function Rank(dir: PowerDir, entities: seq<BatteryId>, soc: map<BatteryId, real>,
                minSoc: real, maxSoc: real): seq<Ranked>
  {
    if dir == Neutral then []
    else SortBySoc(Available(entities, soc, dir, minSoc, maxSoc), dir == Discharge)
  }

  /** Every ranked entry is a configured battery with a readable SoC strictly
      inside the bound for the direction, carrying its reading; NEUTRAL ranks
      nothing. */
  lemma RankMembers(dir: PowerDir, entities: seq<BatteryId>, soc: map<BatteryId, real>,
                    minSoc: real, maxSoc: real)
    ensures var r := Rank(dir, entities, soc, minSoc, maxSoc);
      && (dir == Neutral ==> r == [])
      && (forall k :: 0 <= k < |r| ==> r[k].id in entities && r[k].id in soc && r[k].soc == soc[r[k].id])
      && (dir == Charge ==> forall k :: 0 <= k < |r| ==> r[k].soc < maxSoc)
      && (dir == Discharge ==> forall k :: 0 <= k < |r| ==> r[k].soc > minSoc)
  {
    var r := Rank(dir, entities, soc, minSoc, maxSoc);
    if dir != Neutral {
      var avail := Available(entities, soc, dir, minSoc, maxSoc);
      SortPermutes(avail, dir == Discharge);
      forall k | 0 <= k < |r|
        ensures r[k].id in entities && r[k].id in soc && r[k].soc == soc[r[k].id]
        ensures Admits(dir, r[k].soc, minSoc, maxSoc)
      {
        assert r[k] in multiset(avail);
      }
    }
  }

  /** Lowest SoC first when charging, highest first when discharging. */
  lemma RankOrder(dir: PowerDir, entities: seq<BatteryId>, soc: map<BatteryId, real>,
                  minSoc: real, maxSoc: real)
    ensures var r := Rank(dir, entities, soc, minSoc, maxSoc);
      && (dir == Charge ==> forall i, j :: 0 <= i < j < |r| ==> r[i].soc <= r[j].soc)
      && (dir == Discharge ==> forall i, j :: 0 <= i < j < |r| ==> r[i].soc >= r[j].soc)
  {
  }

  /** No configured battery with a readable, admitted SoC is left out. */
  lemma RankComplete(dir: PowerDir, entities: seq<BatteryId>, soc: map<BatteryId, real>,
                     minSoc: real, maxSoc: real, b: BatteryId)
    requires b in entities && b in soc && Admits(dir, soc[b], minSoc, maxSoc)
    ensures Ranked(b, soc[b]) in Rank(dir, entities, soc, minSoc, maxSoc)
  {
    var avail := Available(entities, soc, dir, minSoc, maxSoc);
    SortPermutes(avail, dir == Discharge);
    AvailableComplete(entities, soc, dir, minSoc, maxSoc, b);
    assert Ranked(b, soc[b]) in multiset(avail);
  }

  /** No battery is ranked more often than it is configured. */
  lemma RankIdsBounded(dir: PowerDir, entities: seq<BatteryId>, soc: map<BatteryId, real>,
                       minSoc: real, maxSoc: real)
    ensures IdBag(Rank(dir, entities, soc, minSoc, maxSoc)) <= multiset(entities)
  {
    if dir != Neutral {
      var avail := Available(entities, soc, dir, minSoc, maxSoc);
      SortIds(avail, dir == Discharge);
      AvailableIdsSubMultiset(entities, soc, dir, minSoc, maxSoc);
    }
  }

  /** Inserting an entry adds its id to the ids. */
  lemma {:induction false} InsertIds(x: Ranked, t: seq<Ranked>, descending: bool)
    requires Sorted(t, descending)
    ensures IdBag(Insert(x, t, descending)) == IdBag(t) + multiset{x.id}
  {
    if t == [] {
      IdBagCons(x, []);
    } else if InOrder(x, t[0], descending) {
      IdBagCons(x, t);
    } else {
      var rest := Insert(x, t[1..], descending);
      InsertIds(x, t[1..], descending);
      ConsKeepsAddedId(t[0], rest, t[1..], x.id);
      assert t == [t[0]] + t[1..];
    }
  }

  /** Putting the same entry in front of two rankings keeps the id one of
      them has in addition to the other. */
  lemma ConsKeepsAddedId(a: Ranked, longer: seq<Ranked>, shorter: seq<Ranked>, id: BatteryId)
    requires IdBag(longer) == IdBag(shorter) + multiset{id}
    ensures IdBag([a] + longer) == IdBag([a] + shorter) + multiset{id}
  {
    IdBagCons(a, longer);
    IdBagCons(a, shorter);
  }

  /** Sorting reorders the ids without adding or losing any. */
  lemma {:induction false} SortIds(s: seq<Ranked>, descending: bool)
    ensures IdBag(SortBySoc(s, descending)) == IdBag(s)
  {
    if s != [] {
      var tail := s[1..];
      var sortedTail := SortBySoc(tail, descending);
      SortIds(tail, descending);
      InsertIds(s[0], sortedTail, descending);
      assert SortBySoc(s, descending) == Insert(s[0], sortedTail, descending);
      assert s == [s[0]] + tail;
      IdBagCons(s[0], tail);
    }
  }

  /** Battery-level direction from the sign of the real power, unless a
      direction is passed in; None when neither is given (nothing happens). */
  function GateDirection(realPower: Option<real>, given: Option<PowerDir>): (d: Option<PowerDir>)
    ensures given.Some? ==> d == given
    ensures given.None? && realPower.None? ==> d.None?
    ensures given.None? && realPower.Some? ==>
      d.Some? && (d.value == Charge <==> realPower.value < 0.0) && (d.value == Discharge <==> realPower.value > 0.0)
  {
    if given.Some? then given
    else if realPower.None? then None
    else if realPower.value < 0.0 then Some(Charge)
    else if realPower.value > 0.0 then Some(Discharge)
    else Some(Neutral)
  }

  /** The minimum spacing between two re-rankings, in seconds. */
  const MinRerankSpacing: real := 10.0

  /** Time since `last` exceeds `span` (always, when `last` is "never"). */
  predicate ElapsedMoreThan(last: Option<real>, now: real, span: real)
  {
    last.None? || now - last.value > span
  }

  /** The second generation's re-rank gate: the direction changed or the
      interval elapsed, and the list is empty or ten seconds have passed. */
  predicate ShouldRerank(dir: PowerDir, lastDir: PowerDir, last: Option<real>, now: real,
                         intervalMinutes: real, listEmpty: bool)
  {
    && (dir != lastDir || ElapsedMoreThan(last, now, intervalMinutes * 60.0))
    && (listEmpty || last.None? || now - last.value >= MinRerankSpacing)
  }

  /** Re-ranking with a non-empty list is never closer than ten seconds to the
      previous one, and without a direction change it needs the interval. */
  lemma RerankRateLimited(dir: PowerDir, lastDir: PowerDir, t: real, now: real,
                          intervalMinutes: real, listEmpty: bool)
    requires ShouldRerank(dir, lastDir, Some(t), now, intervalMinutes, listEmpty)
    ensures !listEmpty ==> now - t >= MinRerankSpacing
    ensures dir == lastDir ==> now - t > intervalMinutes * 60.0
  {
  }

  /** The ranking state of the second-generation coordinator. */
  class PriorityRanker {
    var priority: seq<Ranked>
    var lastDirection: PowerDir
    var lastUpdate: Option<real>

    constructor ()
      ensures priority == [] && lastDirection == Neutral && lastUpdate == None
    {
      priority := [];
      lastDirection := Neutral;
      lastUpdate := None;
    }

    /** `_calculate_battery_priority`: collect the admitted batteries in a
        loop, then sort them. */
    method Recalculate(dir: PowerDir, entities: seq<BatteryId>, soc: map<BatteryId, real>,
                       minSoc: real, maxSoc: real)
      modifies this`priority
      ensures priority == Rank(dir, entities, soc, minSoc, maxSoc)
    {
      if dir == Neutral {
        priority := [];
        return;
      }
      var available: seq<Ranked> := [];
      var i := 0;
      while i < |entities|
        invariant 0 <= i <= |entities|
        invariant available == Available(entities[..i], soc, dir, minSoc, maxSoc)
      {
        var b := entities[i];
        assert entities[..i + 1][..i] == entities[..i];
        if b in soc {
          var level := soc[b];
          if dir == Charge && level < maxSoc {
            available := available + [Ranked(b, level)];
          } else if dir == Discharge && level > minSoc {
            available := available + [Ranked(b, level)];
          }
        }
        i := i + 1;
      }
      assert entities[..i] == entities;
      priority := SortBySoc(available, dir == Discharge);
    }

    /** `_update_battery_priority_if_needed(real_power, power_direction=...)`
        at time `now`; `intervalMinutes` is the configured priority interval. */
    method UpdateIfNeeded(realPower: Option<real>, given: Option<PowerDir>, now: real, intervalMinutes: real,
                          entities: seq<BatteryId>, soc: map<BatteryId, real>, minSoc: real, maxSoc: real)
      modifies this`priority, this`lastDirection, this`lastUpdate
      ensures var d := GateDirection(realPower, given);
        if d.Some? && ShouldRerank(d.value, old(lastDirection), old(lastUpdate), now, intervalMinutes, old(priority) == [])
        then priority == Rank(d.value, entities, soc, minSoc, maxSoc) && lastDirection == d.value && lastUpdate == Some(now)
        else priority == old(priority) && lastDirection == old(lastDirection) && lastUpdate == old(lastUpdate)
    {
      var d := GateDirection(realPower, given);
      if d.None? {
        return;
      }
      var dir := d.value;
      var needsInitial := priority == [];
      var dueByTime := lastUpdate.None? || now - lastUpdate.value > intervalMinutes * 60.0;
      if dir != lastDirection || dueByTime {
        if needsInitial || lastUpdate.None? || now - lastUpdate.value >= MinRerankSpacing {
          Recalculate(dir, entities, soc, minSoc, maxSoc);
          lastDirection := dir;
          lastUpdate := Some(now);
        }
      }
    }
  }
}
