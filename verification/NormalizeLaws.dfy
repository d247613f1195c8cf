/** What folding keeps: each cluster's total demand; an atomic unit some machine hosts;
    and its own result. */
module NormalizeLaws {
  import opened Resources
  import opened Fleet
  import opened Views
  import opened Inventory
  import opened Normalize
  import opened Sequences

  // ---- The state of the pass ----------------------------------------------

  predicate InOrder(f: Folding) {
    Distinct(f.order) && (forall k | k in f.order :: k in f.groups) && (forall k | k in f.groups :: k in f.order)
  }

  lemma StepInOrder(ms: seq<Machine>, f: Folding, n: Need)
    requires InOrder(f)
    ensures InOrder(Step(ms, f, n))
  {
  }

  lemma {:induction false} PassInOrder(ms: seq<Machine>, demand: seq<Need>, k: nat)
    requires k <= |demand|
    ensures InOrder(FoldAll(ms, demand, k))
  {
    if k > 0 {
      PassInOrder(ms, demand, k - 1);
      StepInOrder(ms, FoldAll(ms, demand, k - 1), demand[k - 1]);
    }
  }

  // ---- Conservation -------------------------------------------------------

  /** Everything the Needs of one cluster ask for together. */
  function TotalFor(needs: seq<Need>, cluster: string): ResVec {
    if needs == [] then map[]
    else if needs[|needs| - 1].cluster == cluster
    then Add(TotalFor(needs[..|needs| - 1], cluster), needs[|needs| - 1].aggregate)
    else TotalFor(needs[..|needs| - 1], cluster)
  }

  function Part(k: GroupKey, g: Group, cluster: string): ResVec {
    if k.cluster == cluster then Scale(k.aggregate, g.count) else map[]
  }

  /** What the groups of the listed keys ask for. */
  function GroupsFor(keys: seq<GroupKey>, groups: map<GroupKey, Group>, cluster: string): ResVec {
    if keys == [] then map[]
    else if keys[0] in groups then Add(Part(keys[0], groups[keys[0]], cluster), GroupsFor(keys[1..], groups, cluster))
    else GroupsFor(keys[1..], groups, cluster)
  }

  lemma TotalLast(needs: seq<Need>, n: Need, cluster: string)
    ensures TotalFor(needs + [n], cluster) ==
            if n.cluster == cluster then Add(TotalFor(needs, cluster), n.aggregate) else TotalFor(needs, cluster)
  {
    assert (needs + [n])[..|needs|] == needs;
  }

  lemma TotalConcat(a: seq<Need>, b: seq<Need>, cluster: string)
    ensures TotalFor(a + b, cluster) == Add(TotalFor(a, cluster), TotalFor(b, cluster))
  {
    if b == [] {
      assert a + b == a;
      AddNothing(TotalFor(a, cluster));
    } else {
      var c, n := b[..|b| - 1], b[|b| - 1];
      assert a + b == (a + c) + [n] && b == c + [n];
      TotalConcat(a, c, cluster);
      TotalLast(a + c, n, cluster);
      TotalLast(c, n, cluster);
      AddAssoc(TotalFor(a, cluster), TotalFor(c, cluster), n.aggregate);
    }
  }

  lemma GroupsElse(keys: seq<GroupKey>, groups: map<GroupKey, Group>, cluster: string, k: GroupKey, g: Group)
    requires k !in keys
    ensures GroupsFor(keys, groups[k := g], cluster) == GroupsFor(keys, groups, cluster)
  {
    if keys != [] {
      GroupsElse(keys[1..], groups, cluster, k, g);
    }
  }

  lemma PartNext(k: GroupKey, g: Group, arrival: int, cluster: string)
    ensures Part(k, Group(g.count + 1, arrival), cluster) ==
            if k.cluster == cluster then Add(Part(k, g, cluster), k.aggregate) else map[]
  {
    ScaleNext(k.aggregate, g.count);
  }

  /** One more member of a listed group. */
  lemma {:induction false} GroupsNext(keys: seq<GroupKey>, groups: map<GroupKey, Group>, cluster: string, k: GroupKey,
                                      arrival: int)
    requires Distinct(keys) && k in keys && k in groups
    ensures GroupsFor(keys, groups[k := Group(groups[k].count + 1, arrival)], cluster) ==
            if k.cluster == cluster then Add(GroupsFor(keys, groups, cluster), k.aggregate)
            else GroupsFor(keys, groups, cluster)
    decreases |keys|
  {
    var g := groups[k];
    var after := groups[k := Group(g.count + 1, arrival)];
    var t := keys[1..];
    if keys[0] == k {
      GroupsElse(t, groups, cluster, k, Group(g.count + 1, arrival));
      PartNext(k, g, arrival, cluster);
      var p, r := Part(k, g, cluster), GroupsFor(t, groups, cluster);
      AddAssoc(p, k.aggregate, r);
      AddComm(k.aggregate, r);
      AddAssoc(p, r, k.aggregate);
    } else {
      assert k in t;
      GroupsNext(t, groups, cluster, k, arrival);
      if keys[0] in groups {
        AddAssoc(Part(keys[0], groups[keys[0]], cluster), GroupsFor(t, groups, cluster), k.aggregate);
      }
    }
  }

  lemma GroupsAppend(keys: seq<GroupKey>, groups: map<GroupKey, Group>, cluster: string, k: GroupKey)
    requires k !in keys && k !in groups
    ensures GroupsFor(keys + [k], groups[k := Group(0, 0)], cluster) == GroupsFor(keys, groups, cluster)
  {
    if keys == [] {
      assert [k][1..] == [];
      AddNothing(map[]);
    } else {
      assert (keys + [k])[1..] == keys[1..] + [k];
      GroupsAppend(keys[1..], groups, cluster, k);
    }
  }

  function Carried(f: Folding, cluster: string): ResVec {
    Add(TotalFor(f.out, cluster), GroupsFor(f.order, f.groups, cluster))
  }

  lemma BegunCarried(f: Folding, k: GroupKey, cluster: string)
    requires InOrder(f)
    ensures InOrder(Begin(f, k)) && Carried(Begin(f, k), cluster) == Carried(f, cluster)
  {
    if k !in f.groups {
      GroupsAppend(f.order, f.groups, cluster, k);
    }
  }

  lemma {:induction false} JoinedGroups(f: Folding, k: GroupKey, arrival: int, cluster: string)
    requires InOrder(f) && k in f.groups
    ensures var before := GroupsFor(f.order, f.groups, cluster);
            GroupsFor(Join(f, k, arrival).order, Join(f, k, arrival).groups, cluster) ==
            if k.cluster == cluster then Add(before, k.aggregate) else before
  {
    GroupsNext(f.order, f.groups, cluster, k, Earlier(f.groups[k].arrival, arrival));
  }

  lemma {:induction false} JoinedCarried(f: Folding, k: GroupKey, arrival: int, cluster: string)
    requires InOrder(f) && k in f.groups
    ensures Carried(Join(f, k, arrival), cluster) ==
            if k.cluster == cluster then Add(Carried(f, cluster), k.aggregate) else Carried(f, cluster)
  {
    JoinedGroups(f, k, arrival, cluster);
    AddAssoc(TotalFor(f.out, cluster), GroupsFor(f.order, f.groups, cluster), k.aggregate);
  }

  lemma PassedCarried(f: Folding, n: Need, cluster: string)
    ensures Carried(f.(out := f.out + [n]), cluster) ==
            if n.cluster == cluster then Add(Carried(f, cluster), n.aggregate) else Carried(f, cluster)
  {
    TotalLast(f.out, n, cluster);
    var t, g := TotalFor(f.out, cluster), GroupsFor(f.order, f.groups, cluster);
    AddAssoc(t, n.aggregate, g);
    AddComm(n.aggregate, g);
    AddAssoc(t, g, n.aggregate);
  }

  lemma StepCarried(ms: seq<Machine>, f: Folding, n: Need, cluster: string)
    requires InOrder(f)
    ensures Carried(Step(ms, f, n), cluster) ==
            if n.cluster == cluster then Add(Carried(f, cluster), n.aggregate) else Carried(f, cluster)
  {
    if Foldable(ms, n) {
      BegunCarried(f, KeyOf(n), cluster);
      JoinedCarried(Begin(f, KeyOf(n)), KeyOf(n), n.arrival, cluster);
    } else {
      PassedCarried(f, n, cluster);
    }
  }

  lemma TotalNext(demand: seq<Need>, k: nat, cluster: string)
    requires 0 < k <= |demand|
    ensures TotalFor(demand[..k], cluster) ==
            if demand[k - 1].cluster == cluster then Add(TotalFor(demand[..k - 1], cluster), demand[k - 1].aggregate)
            else TotalFor(demand[..k - 1], cluster)
  {
    assert demand[..k] == demand[..k - 1] + [demand[k - 1]];
    TotalLast(demand[..k - 1], demand[k - 1], cluster);
  }

  lemma {:induction false} PassCarries(ms: seq<Machine>, demand: seq<Need>, k: nat, cluster: string)
    requires k <= |demand|
    ensures Carried(FoldAll(ms, demand, k), cluster) == TotalFor(demand[..k], cluster)
    decreases k
  {
    if k == 0 {
      AddNothing(map[]);
    } else {
      PassCarries(ms, demand, k - 1, cluster);
      PassInOrder(ms, demand, k - 1);
      StepCarried(ms, FoldAll(ms, demand, k - 1), demand[k - 1], cluster);
      TotalNext(demand, k, cluster);
    }
  }

  lemma InsertKeyFor(rank: GroupKey -> int, k: GroupKey, keys: seq<GroupKey>, groups: map<GroupKey, Group>,
                     cluster: string)
    ensures GroupsFor(InsertKey(rank, k, keys), groups, cluster) ==
            if k in groups then Add(Part(k, groups[k], cluster), GroupsFor(keys, groups, cluster))
            else GroupsFor(keys, groups, cluster)
  {
    if keys == [] || rank(k) <= rank(keys[0]) {
      assert ([k] + keys)[1..] == keys;
    } else {
      var h, t := keys[0], keys[1..];
      InsertKeyFor(rank, k, t, groups, cluster);
      assert ([h] + InsertKey(rank, k, t))[1..] == InsertKey(rank, k, t);
      if k in groups && h in groups {
        var x, y, z := Part(h, groups[h], cluster), Part(k, groups[k], cluster), GroupsFor(t, groups, cluster);
        AddAssoc(x, y, z);
        AddComm(x, y);
        AddAssoc(y, x, z);
      }
    }
  }

  lemma SortedFor(rank: GroupKey -> int, keys: seq<GroupKey>, groups: map<GroupKey, Group>, cluster: string)
    ensures GroupsFor(SortKeys(rank, keys), groups, cluster) == GroupsFor(keys, groups, cluster)
  {
    if keys != [] {
      SortedFor(rank, keys[1..], groups, cluster);
      InsertKeyFor(rank, keys[0], SortKeys(rank, keys[1..]), groups, cluster);
    }
  }

  lemma TotalHead(h: Need, t: seq<Need>, cluster: string)
    ensures TotalFor([h] + t, cluster) ==
            if h.cluster == cluster then Add(h.aggregate, TotalFor(t, cluster)) else TotalFor(t, cluster)
  {
    TotalConcat([h], t, cluster);
    assert [h][..0] == [];
    AddNothing(h.aggregate);
    AddNothing(TotalFor(t, cluster));
  }

  lemma FoldedTotal(keys: seq<GroupKey>, groups: map<GroupKey, Group>, cluster: string)
    ensures TotalFor(Folded(keys, groups), cluster) == GroupsFor(keys, groups, cluster)
  {
    if keys != [] {
      var rest := Folded(keys[1..], groups);
      FoldedTotal(keys[1..], groups, cluster);
      if keys[0] in groups {
        var h := FoldedNeed(keys[0], groups[keys[0]]);
        assert Folded(keys, groups) == [h] + rest;
        TotalHead(h, rest, cluster);
        AddNothing(TotalFor(rest, cluster));
      } else {
        assert Folded(keys, groups) == rest;
      }
    }
  }

  /** Folding moves demand between Needs and loses none: every cluster asks for exactly
      what it asked for before. */
  lemma DemandConserved(rank: GroupKey -> int, ms: seq<Machine>, demand: seq<Need>, cluster: string)
    ensures TotalFor(Normalized(rank, ms, demand), cluster) == TotalFor(demand, cluster)
  {
    var f := FoldAll(ms, demand, |demand|);
    PassCarries(ms, demand, |demand|, cluster);
    assert demand[..|demand|] == demand;
    var keys := SortKeys(rank, f.order);
    TotalConcat(f.out, Folded(keys, f.groups), cluster);
    FoldedTotal(keys, f.groups, cluster);
    SortedFor(rank, f.order, f.groups, cluster);
  }

  // ---- The atomic unit of a folded Need -----------------------------------

  /** Some machine of the snapshot hosts the whole unit. */
  predicate UnitHosted(ms: seq<Machine>, n: Need) {
    exists m :: m in ms && Fits(n, m)
  }

  lemma FoldableHosted(ms: seq<Machine>, n: Need)
    requires Foldable(ms, n)
    ensures exists m :: m in ms && Matches(Stripped(n.profile), m) && Covers(Alloc(m), n.aggregate)
  {
    var p, agg := n.profile, n.aggregate;
    if ClusterFits(ms, n.cluster, p, agg) {
      var m :| m in Select(Bound(n.cluster, Configured), ms) + Select(Bound(n.cluster, Configuring), ms) &&
          Roomy(p, agg, m);
      SelectIn(Bound(n.cluster, Configured), ms, m);
      SelectIn(Bound(n.cluster, Configuring), ms, m);
      StrippedPlain(p, m);
    } else {
      var m :| m in Source(ms, Idle, p) + Source(ms, Speculative, p) && Roomy(p, agg, m);
      SourceIn(ms, Idle, p, m);
      SourceIn(ms, Speculative, p, m);
      StrippedPlain(p, m);
    }
  }

  /** A key of the pass comes from a foldable member of the demand. */
  lemma {:induction false} KeyFrom(ms: seq<Machine>, demand: seq<Need>, k: nat, key: GroupKey)
    requires k <= |demand| && key in FoldAll(ms, demand, k).groups
    ensures exists j :: 0 <= j < k && Foldable(ms, demand[j]) && KeyOf(demand[j]) == key
    decreases k
  {
    if key in FoldAll(ms, demand, k - 1).groups {
      KeyFrom(ms, demand, k - 1, key);
    } else {
      assert Foldable(ms, demand[k - 1]) && KeyOf(demand[k - 1]) == key;
    }
  }

  lemma FoldedIn(keys: seq<GroupKey>, groups: map<GroupKey, Group>, n: Need)
    requires n in Folded(keys, groups)
    ensures exists k :: k in groups && n == FoldedNeed(k, groups[k])
  {
    if keys[0] in groups && n == FoldedNeed(keys[0], groups[keys[0]]) {
    } else {
      FoldedIn(keys[1..], groups, n);
    }
  }

  /** A folded Need asks for whole members: its unit is one member's aggregate, and some
      machine of the snapshot that its Profile accepts hosts it. */
  lemma {:induction false} FoldedUnit(rank: GroupKey -> int, ms: seq<Machine>, demand: seq<Need>, n: Need)
    requires n in Folded(SortKeys(rank, FoldAll(ms, demand, |demand|).order), FoldAll(ms, demand, |demand|).groups)
    ensures UnitHosted(ms, n) && SameKey(n.profile).None?
    ensures exists j :: 0 <= j < |demand| && Foldable(ms, demand[j]) && n.cluster == demand[j].cluster &&
                        n.profile == Stripped(demand[j].profile) && n.minUnit == demand[j].aggregate
  {
    var f := FoldAll(ms, demand, |demand|);
    FoldedIn(SortKeys(rank, f.order), f.groups, n);
    var k :| k in f.groups && n == FoldedNeed(k, f.groups[k]);
    KeyFrom(ms, demand, |demand|, k);
    var j :| 0 <= j < |demand| && Foldable(ms, demand[j]) && KeyOf(demand[j]) == k;
    FoldableHosted(ms, demand[j]);
    var m :| m in ms && Matches(Stripped(demand[j].profile), m) && Covers(Alloc(m), demand[j].aggregate);
    assert Fits(n, m);
    StrippedPlain(demand[j].profile, m);
  }

  // ---- Once is enough -----------------------------------------------------

  lemma {:induction false} PassedStays(ms: seq<Machine>, demand: seq<Need>, k: nat)
    requires k <= |demand|
    ensures forall n | n in FoldAll(ms, demand, k).out :: n in demand && !Foldable(ms, n)
    decreases k
  {
    if k > 0 {
      PassedStays(ms, demand, k - 1);
    }
  }

  /** Normalising again on the same snapshot changes nothing. */
  lemma NormalizedOnce(rank: GroupKey -> int, ms: seq<Machine>, demand: seq<Need>)
    ensures Normalized(rank, ms, Normalized(rank, ms, demand)) == Normalized(rank, ms, demand)
  {
    var f := FoldAll(ms, demand, |demand|);
    var once := Normalized(rank, ms, demand);
    PassedStays(ms, demand, |demand|);
    forall n | n in once
      ensures !Foldable(ms, n)
    {
      if n !in f.out {
        FoldedUnit(rank, ms, demand, n);
      }
    }
    NoGangs(ms, once, |once|);
    assert once[..|once|] == once && once + [] == once;
  }

  // ---- Who is in a folded Need --------------------------------------------

  function Members(ms: seq<Machine>, demand: seq<Need>, k: nat, key: GroupKey): seq<Need>
    requires k <= |demand|
  {
    if k == 0 then []
    else Members(ms, demand, k - 1, key) +
         if Foldable(ms, demand[k - 1]) && KeyOf(demand[k - 1]) == key then [demand[k - 1]] else []
  }

  function Earliest(ns: seq<Need>): int {
    if ns == [] then 0 else Earlier(Earliest(ns[..|ns| - 1]), ns[|ns| - 1].arrival)
  }

  predicate Counted(f: Folding, key: GroupKey, members: seq<Need>) {
    (key in f.groups <==> members != []) &&
    (key in f.groups ==> f.groups[key] == Group(|members|, Earliest(members)))
  }

  lemma JoinCounted(f: Folding, key: GroupKey, members: seq<Need>, n: Need)
    requires Counted(f, key, members)
    ensures Counted(Join(Begin(f, KeyOf(n)), KeyOf(n), n.arrival), key,
                    if KeyOf(n) == key then members + [n] else members)
  {
    assert (members + [n])[..|members|] == members;
  }

  /** Every group counts its members and keeps their earliest known arrival. */
  lemma {:induction false} GroupsCount(ms: seq<Machine>, demand: seq<Need>, k: nat, key: GroupKey)
    requires k <= |demand|
    ensures Counted(FoldAll(ms, demand, k), key, Members(ms, demand, k, key))
    decreases k
  {
    if k > 0 {
      GroupsCount(ms, demand, k - 1, key);
      var before := Members(ms, demand, k - 1, key);
      if Foldable(ms, demand[k - 1]) {
        JoinCounted(FoldAll(ms, demand, k - 1), key, before, demand[k - 1]);
      }
      assert before + [] == before;
    }
  }
}
