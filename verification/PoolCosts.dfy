/** When the pool of Speculative machines is in the order of what they are expected to
    cost, and when a penalty without bound leaves it out of order. */
module PoolCosts {
  import opened Fleet
  import opened Scoring
  import opened Views
  import opened Inventory

  /** What a machine is expected to cost: no risk costs nothing, whatever the penalty. */
  function ExpectedCost(m: Machine, penalty: Penalty): Cost {
    if m.interruptionProbability == 0.0 then Known(m.price) else EffectiveCost(m, penalty)
  }

  predicate Cheaper(penalty: Penalty, a: Machine, b: Machine) {
    var x, y := ExpectedCost(a, penalty), ExpectedCost(b, penalty);
    x.Less(y) || (x == y && a.id < b.id)
  }

  predicate CostSorted(penalty: Penalty, s: seq<Machine>) {
    forall i, j | 0 <= i < j < |s| :: !Cheaper(penalty, s[j], s[i])
  }

  predicate RiskFree(m: Machine) {
    m.interruptionProbability == 0.0
  }

  /** The machines without risk come first, by price. */
  predicate RiskFreeFirst(s: seq<Machine>) {
    forall i, j | 0 <= i < j < |s| && RiskFree(s[j]) :: RiskFree(s[i]) && !Before(ByPrice, s[j], s[i])
  }

  predicate Probable(s: seq<Machine>) {
    forall m | m in s :: m.interruptionProbability >= 0.0
  }

  /** Under an unbounded penalty the sort moves no machine without risk, and none past one. */
  predicate SamePlaces(s: seq<Machine>, r: seq<Machine>) {
    |s| == |r| && forall k | 0 <= k < |s| :: RiskFree(s[k]) == RiskFree(r[k]) && (RiskFree(s[k]) ==> r[k] == s[k])
  }

  lemma {:induction false} InsertPlaces(m: Machine, s: seq<Machine>)
    requires Probable([m] + s)
    ensures SamePlaces([m] + s, Insert(ByCost(Unbounded), m, s))
    decreases |s|
  {
    var o := ByCost(Unbounded);
    if s != [] && Before(o, s[0], m) {
      var h, t := s[0], s[1..];
      assert s == [h] + t && h in [m] + s && m in [m] + s && !RiskFree(h) && !RiskFree(m);
      assert forall x | x in [m] + t :: x in [m] + s;
      InsertPlaces(m, t);
      ConsPlaces(m, h, t, Insert(o, m, t));
    }
  }

  lemma ConsPlaces(m: Machine, h: Machine, t: seq<Machine>, r: seq<Machine>)
    requires SamePlaces([m] + t, r) && !RiskFree(h) && !RiskFree(m)
    ensures SamePlaces([m] + ([h] + t), [h] + r)
  {
    var s, q := [m] + ([h] + t), [h] + r;
    forall k | 0 <= k < |s|
      ensures RiskFree(s[k]) == RiskFree(q[k]) && (RiskFree(s[k]) ==> q[k] == s[k])
    {
      if k > 1 {
        assert s[k] == ([m] + t)[k - 1] && q[k] == r[k - 1];
      } else if k == 1 {
        assert q[1] == r[0] && ([m] + t)[0] == m;
      }
    }
  }

  lemma HeadPlaces(h: Machine, t: seq<Machine>, r: seq<Machine>)
    requires SamePlaces(t, r)
    ensures SamePlaces([h] + t, [h] + r)
  {
    assert forall k | 0 < k < |t| + 1 :: ([h] + t)[k] == t[k - 1] && ([h] + r)[k] == r[k - 1];
  }

  lemma PlacesOn(a: seq<Machine>, b: seq<Machine>, c: seq<Machine>)
    requires SamePlaces(a, b) && SamePlaces(b, c)
    ensures SamePlaces(a, c)
  {
  }

  lemma {:induction false} SortPlaces(s: seq<Machine>)
    requires Probable(s)
    ensures SamePlaces(s, Sort(ByCost(Unbounded), s))
    decreases |s|
  {
    if s != [] {
      var h, t := s[0], s[1..];
      var r := Sort(ByCost(Unbounded), t);
      assert s == [h] + t;
      assert forall x | x in t :: x in s;
      SortPlaces(t);
      forall x | x in [h] + r
        ensures x in s
      {
        SortIn(ByCost(Unbounded), t, x);
      }
      InsertPlaces(h, r);
      HeadPlaces(h, t, r);
      PlacesOn(s, [h] + r, Insert(ByCost(Unbounded), h, r));
    }
  }

  lemma BoundedCost(penalty: Penalty, a: Machine, b: Machine)
    requires penalty.Amount?
    ensures Cheaper(penalty, a, b) == Before(ByCost(penalty), a, b)
  {
  }

  lemma {:induction false} RiskyById(s: seq<Machine>)
    requires forall m | m in s :: m.interruptionProbability > 0.0
    ensures Sort(ByCost(Unbounded), s) == Sort(IdOrder, s)
    decreases |s|
  {
    if s != [] {
      assert s[0] in s && forall x | x in s[1..] :: x in s;
      RiskyById(s[1..]);
      forall x | x in Sort(IdOrder, s[1..])
        ensures x.interruptionProbability > 0.0
      {
        SortIn(IdOrder, s[1..], x);
      }
      RiskyInsert(s[0], Sort(IdOrder, s[1..]));
    }
  }

  lemma {:induction false} RiskyInsert(m: Machine, s: seq<Machine>)
    requires m.interruptionProbability > 0.0 && forall x | x in s :: x.interruptionProbability > 0.0
    ensures Insert(ByCost(Unbounded), m, s) == Insert(IdOrder, m, s)
    decreases |s|
  {
    if s != [] {
      assert s[0] in s && forall x | x in s[1..] :: x in s;
      RiskyInsert(m, s[1..]);
    }
  }

  lemma CheapestAhead(h: Machine, r: seq<Machine>)
    requires CostSorted(Unbounded, r) && forall x | x in r :: !Cheaper(Unbounded, x, h)
    ensures CostSorted(Unbounded, [h] + r)
  {
  }

  lemma FirstIsCheapest(s: seq<Machine>, x: Machine)
    requires Probable(s) && RiskFreeFirst(s) && s != [] && RiskFree(s[0]) && x in s[1..]
    ensures !Cheaper(Unbounded, x, s[0]) && !Before(ByCost(Unbounded), x, s[0])
  {
    var j :| 1 <= j < |s| && s[j] == x;
    assert x in s;
  }

  lemma {:induction false} RiskFreeSorts(s: seq<Machine>)
    requires Probable(s) && RiskFreeFirst(s)
    ensures CostSorted(Unbounded, Sort(ByCost(Unbounded), s))
    decreases |s|
  {
    if s != [] {
      var h, t := s[0], s[1..];
      var r := Sort(ByCost(Unbounded), t);
      assert h in s && forall x | x in t :: x in s;
      if RiskFree(h) {
        RiskFreeSorts(t);
        forall x | x in r
          ensures !Cheaper(Unbounded, x, h) && !Before(ByCost(Unbounded), x, h)
        {
          SortIn(ByCost(Unbounded), t, x);
          FirstIsCheapest(s, x);
        }
        InsertAhead(ByCost(Unbounded), h, r);
        CheapestAhead(h, r);
      } else {
        AllRisky(s);
        RiskyById(s);
        SortSorted(IdOrder, s);
        RiskySorted(s);
      }
    }
  }

  lemma AllRisky(s: seq<Machine>)
    requires Probable(s) && RiskFreeFirst(s) && s != [] && !RiskFree(s[0])
    ensures forall m | m in s :: m.interruptionProbability > 0.0
  {
    forall m | m in s
      ensures m.interruptionProbability > 0.0
    {
      var j :| 0 <= j < |s| && s[j] == m;
      assert j == 0 || !RiskFree(s[j]);
    }
  }

  lemma RiskySorted(s: seq<Machine>)
    requires forall m | m in s :: m.interruptionProbability > 0.0
    requires Sorted(IdOrder, Sort(IdOrder, s))
    ensures CostSorted(Unbounded, Sort(IdOrder, s))
  {
    forall m | m in Sort(IdOrder, s)
      ensures m.interruptionProbability > 0.0
    {
      SortIn(IdOrder, s, m);
    }
  }

  lemma SortedRiskFree(s: seq<Machine>, r: seq<Machine>)
    requires Probable(r) && SamePlaces(s, r) && CostSorted(Unbounded, r)
    ensures RiskFreeFirst(s)
  {
    forall i, j | 0 <= i < j < |s| && RiskFree(s[j])
      ensures RiskFree(s[i]) && !Before(ByPrice, s[j], s[i])
    {
      assert r[j] == s[j] && !Cheaper(Unbounded, r[j], r[i]) && r[i] in r;
    }
  }

  /** The Speculative pool is in order of expected cost if and only if the Profile is not
      pinned by its penalty, or its source already lists the machines without risk first
      and by price. (A source holds records with probabilities, none of them negative.) */
  lemma CostOrderExact(ms: seq<Machine>, p: Profile)
    requires Probable(ms)
    ensures CostSorted(PenaltyDollars(p.interruption), Pool(ms, Speculative, p)) <==>
            p.interruption != PINNED || RiskFreeFirst(Source(ms, Speculative, p))
  {
    var src, penalty := Source(ms, Speculative, p), PenaltyDollars(p.interruption);
    forall m | m in src
      ensures m in ms
    {
      SourceIn(ms, Speculative, p, m);
    }
    if penalty.Amount? {
      SortSorted(ByCost(penalty), src);
      BoundedSorted(penalty, Sort(ByCost(penalty), src));
    } else {
      var r := Sort(ByCost(Unbounded), src);
      SortPlaces(src);
      forall m | m in r
        ensures m in src
      {
        SortIn(ByCost(Unbounded), src, m);
      }
      if CostSorted(Unbounded, r) {
        SortedRiskFree(src, r);
      }
      if RiskFreeFirst(src) {
        RiskFreeSorts(src);
      }
    }
  }

  lemma BoundedSorted(penalty: Penalty, r: seq<Machine>)
    requires penalty.Amount? && Sorted(ByCost(penalty), r)
    ensures CostSorted(penalty, r)
  {
    forall i, j | 0 <= i < j < |r|
      ensures !Cheaper(penalty, r[j], r[i])
    {
      BoundedCost(penalty, r[j], r[i]);
    }
  }

  /** A pool out of order: the Need that can least afford an interruption is offered the
      spot machine before the one that is never interrupted. */
  lemma PinnedTakesSpot()
    ensures var spot := Machine(1, Speculative, false, "", "", Spot, "", "", map[], 0.1, 0.1, map["cpu" := 1], map[],
                                0, Amount(0.0), Amount(0.0), None, "");
            var safe := spot.(id := 2, capacity := OnDemand, price := 1.0, interruptionProbability := 0.0);
            var p := Profile([], [], 0, PINNED, 0);
            && WellFormed(spot) && WellFormed(safe) && Cheaper(Unbounded, safe, spot)
            && Pool([spot, safe], Speculative, p) == [spot, safe]
  {
    var spot := Machine(1, Speculative, false, "", "", Spot, "", "", map[], 0.1, 0.1, map["cpu" := 1], map[],
                        0, Amount(0.0), Amount(0.0), None, "");
    var safe := spot.(id := 2, capacity := OnDemand, price := 1.0, interruptionProbability := 0.0);
    assert [spot, safe][1..] == [safe] && [safe][1..] == [];
    assert Select(InState(Speculative), [safe]) == [safe];
    assert Sort(ByCost(Unbounded), [safe]) == [safe];
  }

  lemma IdOrderStays(s: seq<Machine>)
    requires Sorted(IdOrder, s) && Probable(s)
    ensures Sort(ByCost(Unbounded), s) == s
  {
    forall i, j | 0 <= i < j < |s|
      ensures !Before(ByCost(Unbounded), s[j], s[i])
    {
      assert s[i] in s && s[j] in s && !Before(IdOrder, s[j], s[i]);
    }
    SortedStays(ByCost(Unbounded), s);
  }

  lemma SelectedInOrder(q: Query, ms: seq<Machine>)
    requires Ascending(ms)
    ensures Sorted(IdOrder, Select(q, ms))
  {
    SortedStays(IdOrder, ms);
    SelectSort(q, IdOrder, ms);
    SortSorted(IdOrder, Select(q, ms));
  }

  /** Under an unbounded penalty the pool of a Profile without pinned types is simply the
      fleet's Speculative machines in id order: the sort has nothing to move. */
  lemma {:induction false} UnpinnedStays(ms: seq<Machine>, p: Profile)
    requires Ascending(ms) && Probable(ms) && PinnedTypes(p).None? && p.interruption == PINNED
    ensures Pool(ms, Speculative, p) == Select(InState(Speculative), ms)
  {
    var src := Select(InState(Speculative), ms);
    SelectedInOrder(InState(Speculative), ms);
    forall m | m in src
      ensures m in ms
    {
      SelectIn(InState(Speculative), ms, m);
    }
    IdOrderStays(src);
  }

  /** The Idle pool offers the cheapest machine first, of equal price the lesser id. */
  lemma IdleByPrice(ms: seq<Machine>, p: Profile, i: nat, j: nat)
    requires i < j < |Pool(ms, Idle, p)|
    ensures var a, b := Pool(ms, Idle, p)[i], Pool(ms, Idle, p)[j];
            a.price < b.price || (a.price == b.price && a.id <= b.id)
  {
    SortSorted(ByPrice, Source(ms, Idle, p));
    assert !Before(ByPrice, Pool(ms, Idle, p)[j], Pool(ms, Idle, p)[i]);
  }

  /** The Speculative pool of a Profile whose penalty is bounded offers the machine of least
      expected cost first, its price plus its risk times the penalty. */
  lemma SpeculativeByCost(ms: seq<Machine>, p: Profile, i: nat, j: nat)
    requires i < j < |Pool(ms, Speculative, p)| && p.interruption != PINNED
    ensures var a, b := Pool(ms, Speculative, p)[i], Pool(ms, Speculative, p)[j];
            var d := PenaltyDollars(p.interruption).dollars;
            a.price + a.interruptionProbability * d <= b.price + b.interruptionProbability * d
  {
    var o := ByCost(PenaltyDollars(p.interruption));
    SortSorted(o, Source(ms, Speculative, p));
    assert !Before(o, Pool(ms, Speculative, p)[j], Pool(ms, Speculative, p)[i]);
    BucketNonnegative(p.interruption);
  }

  lemma BucketNonnegative(bucket: nat)
    requires bucket != PINNED
    ensures PenaltyDollars(bucket).Amount? && PenaltyDollars(bucket).dollars >= 0.0
  {
    if bucket >= 3 {
      DoubledPositive(bucket - 3);
    }
  }

  lemma DoubledPositive(n: nat)
    ensures Doubled(n) >= 1.0
  {
  }
}
