/** What normalisation means for the Needs: which gangs are folded, into what, and what is
    left as it was. */
module NormalizeMeaning {
  import opened Resources
  import opened Fleet
  import opened Views
  import opened Inventory
  import opened Normalize
  import opened NormalizeLaws

  /** The machine meets every requirement of the Profile except its Same constraints. */
  predicate Meets(p: Profile, m: Machine) {
    forall r | r in p.requirements && r.op != Same :: MatchRequirement(r, m)
  }

  /** Stripping drops the Same constraint and nothing else. */
  lemma StrippedMeans(p: Profile, m: Machine)
    ensures Matches(Stripped(p), m) <==> Meets(p, m)
    ensures Stripped(p).spread == p.spread && Stripped(p).priority == p.priority
    ensures Stripped(p).interruption == p.interruption && Stripped(p).reclamation == p.reclamation
  {
    forall r
      ensures r in Stripped(p).requirements <==> r in p.requirements && r.op != Same
    {
      DropSameIn(p.requirements, r);
    }
  }

  /** Where a gang's machines may come from: bound to its cluster, or free; a Profile pinned
      to instance types sees of the free ones only those that declare theirs. */
  predicate Reachable(n: Need, m: Machine) {
    || (m.cluster == n.cluster && n.cluster != "" && (m.state == Configured || m.state == Configuring))
    || ((m.state == Idle || m.state == Speculative) && (PinnedTypes(n.profile).Some? ==> m.instanceType != ""))
  }

  /** One machine the gang could use hosts the whole of it. */
  predicate HostedWhole(ms: seq<Machine>, n: Need) {
    exists m :: m in ms && Reachable(n, m) && Matches(n.profile, m) && Covers(Alloc(m), n.aggregate)
  }

  /** A gang is folded exactly when one machine it could use hosts the whole of it. */
  lemma FoldableExactly(ms: seq<Machine>, n: Need)
    ensures Foldable(ms, n) <==> SameKey(n.profile).Some? && HostedWhole(ms, n)
  {
    var p, agg := n.profile, n.aggregate;
    forall m | m in ms && Matches(p, m)
      ensures Reachable(n, m) <==>
              m in Select(Bound(n.cluster, Configured), ms) + Select(Bound(n.cluster, Configuring), ms) ||
              m in Source(ms, Idle, p) + Source(ms, Speculative, p)
    {
      SelectIn(Bound(n.cluster, Configured), ms, m);
      SelectIn(Bound(n.cluster, Configuring), ms, m);
      FreeSource(ms, Idle, p, m);
      FreeSource(ms, Speculative, p, m);
    }
    if Foldable(ms, n) {
      FoldableFound(ms, n);
    }
  }

  lemma FoldableFound(ms: seq<Machine>, n: Need)
    requires Foldable(ms, n)
    ensures exists m :: m in ms && Roomy(n.profile, n.aggregate, m) &&
              (m in Select(Bound(n.cluster, Configured), ms) + Select(Bound(n.cluster, Configuring), ms) ||
               m in Source(ms, Idle, n.profile) + Source(ms, Speculative, n.profile))
  {
    var p, agg := n.profile, n.aggregate;
    if ClusterFits(ms, n.cluster, p, agg) {
      var m :| m in Select(Bound(n.cluster, Configured), ms) + Select(Bound(n.cluster, Configuring), ms) &&
               Roomy(p, agg, m);
      SelectIn(Bound(n.cluster, Configured), ms, m);
      SelectIn(Bound(n.cluster, Configuring), ms, m);
    } else {
      var m :| m in Source(ms, Idle, p) + Source(ms, Speculative, p) && Roomy(p, agg, m);
      SourceIn(ms, Idle, p, m);
      SourceIn(ms, Speculative, p, m);
    }
  }

  // ---- What comes out -----------------------------------------------------

  /** The Need stands for the gang: same cluster, a unit that is the whole gang, the gang's
      spread, priority and penalties, and a Profile that accepts exactly the machines that
      meet the gang's requirements other than Same. */
  ghost predicate StandsFor(n: Need, gang: Need) {
    && n.cluster == gang.cluster && n.minUnit == gang.aggregate && n.group == "" && !n.parked
    && n.profile.spread == gang.profile.spread && n.profile.priority == gang.profile.priority
    && n.profile.interruption == gang.profile.interruption && n.profile.reclamation == gang.profile.reclamation
    && forall m :: Matches(n.profile, m) <==> Meets(gang.profile, m)
  }

  lemma KeyStands(k: GroupKey, g: Group, gang: Need)
    requires KeyOf(gang) == k
    ensures StandsFor(FoldedNeed(k, g), gang)
  {
    forall m
      ensures Matches(FoldedNeed(k, g).profile, m) <==> Meets(gang.profile, m)
    {
      StrippedMeans(gang.profile, m);
    }
    StrippedMeans(gang.profile, Blank());
  }

  function Blank(): Machine {
    Machine(0, Idle, true, "", "", OnDemand, "", "", map[], 0.0, 0.0, map[], map[], 0, Amount(0.0), Amount(0.0),
            None, "")
  }

  function Tail(rank: GroupKey -> int, ms: seq<Machine>, demand: seq<Need>): seq<Need> {
    var f := FoldAll(ms, demand, |demand|);
    Folded(SortKeys(rank, f.order), f.groups)
  }

  /** The Needs that are left as they were. */
  function Kept(ms: seq<Machine>, demand: seq<Need>): seq<Need> {
    if demand == [] then []
    else
      var n := demand[|demand| - 1];
      Kept(ms, demand[..|demand| - 1]) + if SameKey(n.profile).Some? && HostedWhole(ms, n) then [] else [n]
  }

  lemma {:induction false} PassedKept(ms: seq<Machine>, demand: seq<Need>, k: nat)
    requires k <= |demand|
    ensures FoldAll(ms, demand, k).out == Kept(ms, demand[..k])
    decreases k
  {
    if k > 0 {
      PassedKept(ms, demand, k - 1);
      FoldableExactly(ms, demand[k - 1]);
      assert demand[..k][..k - 1] == demand[..k - 1];
    }
  }

  /** The result is the Needs that are left as they were, in their order, then the folded. */
  lemma NormalizedIs(rank: GroupKey -> int, ms: seq<Machine>, demand: seq<Need>)
    ensures Normalized(rank, ms, demand) == Kept(ms, demand) + Tail(rank, ms, demand)
  {
    PassedKept(ms, demand, |demand|);
    assert demand[..|demand|] == demand;
  }

  lemma KeptIn(ms: seq<Machine>, demand: seq<Need>, n: Need)
    ensures n in Kept(ms, demand) <==> n in demand && !(SameKey(n.profile).Some? && HostedWhole(ms, n))
  {
    if demand != [] {
      KeptIn(ms, demand[..|demand| - 1], n);
      assert demand == demand[..|demand| - 1] + [demand[|demand| - 1]];
    }
  }

  /** No gang is left that one machine it could use would host. */
  lemma NoGangToFold(rank: GroupKey -> int, ms: seq<Machine>, demand: seq<Need>, n: Need)
    requires n in Normalized(rank, ms, demand) && SameKey(n.profile).Some?
    ensures n in demand && !HostedWhole(ms, n)
  {
    NormalizedIs(rank, ms, demand);
    KeptIn(ms, demand, n);
    if n in Tail(rank, ms, demand) {
      FoldedUnit(rank, ms, demand, n);
    }
  }

  /** What one folded Need stands for: some gangs, all hosted whole; it asks for as many units
      as they are, and arrived when the first of them did. */
  ghost predicate StandsForAll(ms: seq<Machine>, n: Need, gangs: seq<Need>) {
    && gangs != [] && n.aggregate == Scale(n.minUnit, |gangs|) && EarliestKnown(n.arrival, gangs)
    && forall g | g in gangs :: StandsFor(n, g) && SameKey(g.profile).Some? && HostedWhole(ms, g)
  }

  lemma {:induction false} MemberFrom(ms: seq<Machine>, demand: seq<Need>, k: nat, key: GroupKey, n: Need)
    requires k <= |demand| && n in Members(ms, demand, k, key)
    ensures Foldable(ms, n) && KeyOf(n) == key && exists j :: 0 <= j < k && demand[j] == n
    decreases k
  {
    if n in Members(ms, demand, k - 1, key) {
      MemberFrom(ms, demand, k - 1, key, n);
    } else {
      assert demand[k - 1] == n;
    }
  }

  lemma {:induction false} MemberIn(ms: seq<Machine>, demand: seq<Need>, k: nat, key: GroupKey, j: nat)
    requires j < k <= |demand| && Foldable(ms, demand[j]) && KeyOf(demand[j]) == key
    ensures demand[j] in Members(ms, demand, k, key)
    decreases k
  {
    if j < k - 1 {
      MemberIn(ms, demand, k - 1, key, j);
    }
  }

  lemma {:induction false} MembersAre(ms: seq<Machine>, demand: seq<Need>, k: nat, key: GroupKey, n: Need)
    requires k <= |demand|
    ensures n in Members(ms, demand, k, key) <==>
            exists j :: 0 <= j < k && demand[j] == n && Foldable(ms, n) && KeyOf(n) == key
  {
    if n in Members(ms, demand, k, key) {
      MemberFrom(ms, demand, k, key, n);
    }
    if j :| 0 <= j < k && demand[j] == n && Foldable(ms, n) && KeyOf(n) == key {
      MemberIn(ms, demand, k, key, j);
    }
  }

  lemma {:induction false} EarliestIs(ns: seq<Need>)
    ensures EarliestKnown(Earliest(ns), ns)
    decreases |ns|
  {
    if ns != [] {
      EarliestIs(ns[..|ns| - 1]);
      EarliestNext(Earliest(ns[..|ns| - 1]), ns[..|ns| - 1], ns[|ns| - 1]);
      assert ns == ns[..|ns| - 1] + [ns[|ns| - 1]];
    }
  }

  lemma GroupStands(ms: seq<Machine>, demand: seq<Need>, key: GroupKey)
    requires key in FoldAll(ms, demand, |demand|).groups
    ensures StandsForAll(ms, FoldedNeed(key, FoldAll(ms, demand, |demand|).groups[key]),
                         Members(ms, demand, |demand|, key))
  {
    var members := Members(ms, demand, |demand|, key);
    GroupsCount(ms, demand, |demand|, key);
    EarliestIs(members);
    var n := FoldedNeed(key, FoldAll(ms, demand, |demand|).groups[key]);
    forall g | g in members
      ensures StandsFor(n, g) && SameKey(g.profile).Some? && HostedWhole(ms, g)
    {
      MembersAre(ms, demand, |demand|, key, g);
      FoldableExactly(ms, g);
      KeyStands(key, FoldAll(ms, demand, |demand|).groups[key], g);
    }
  }

  /** Every folded Need stands for gangs of the demand, ... */
  lemma FoldedStands(rank: GroupKey -> int, ms: seq<Machine>, demand: seq<Need>, n: Need)
    requires n in Tail(rank, ms, demand)
    ensures exists gangs :: StandsForAll(ms, n, gangs) && forall g | g in gangs :: g in demand
  {
    var f := FoldAll(ms, demand, |demand|);
    FoldedIn(SortKeys(rank, f.order), f.groups, n);
    var key :| key in f.groups && n == FoldedNeed(key, f.groups[key]);
    GroupStands(ms, demand, key);
    var gangs := Members(ms, demand, |demand|, key);
    forall g | g in gangs
      ensures g in demand
    {
      MembersAre(ms, demand, |demand|, key, g);
    }
  }

  lemma SortedKeys(rank: GroupKey -> int, keys: seq<GroupKey>, k: GroupKey)
    ensures k in SortKeys(rank, keys) <==> k in keys
  {
    if keys != [] {
      SortedKeys(rank, keys[1..], k);
      InsertedKey(rank, keys[0], SortKeys(rank, keys[1..]), k);
    }
  }

  lemma InsertedKey(rank: GroupKey -> int, h: GroupKey, keys: seq<GroupKey>, k: GroupKey)
    ensures k in InsertKey(rank, h, keys) <==> k == h || k in keys
  {
    if keys != [] && rank(h) > rank(keys[0]) {
      InsertedKey(rank, h, keys[1..], k);
    }
  }

  lemma FoldedHas(keys: seq<GroupKey>, groups: map<GroupKey, Group>, k: GroupKey)
    requires k in keys && k in groups
    ensures FoldedNeed(k, groups[k]) in Folded(keys, groups)
  {
    if keys[0] != k {
      FoldedHas(keys[1..], groups, k);
    }
  }

  /** ... and every gang that is hosted whole is among those some folded Need stands for. */
  lemma {:induction false} GangStoodFor(rank: GroupKey -> int, ms: seq<Machine>, demand: seq<Need>, j: nat)
    requires j < |demand| && SameKey(demand[j].profile).Some? && HostedWhole(ms, demand[j])
    ensures exists n, gangs :: n in Tail(rank, ms, demand) && StandsForAll(ms, n, gangs) && demand[j] in gangs
  {
    var f := FoldAll(ms, demand, |demand|);
    var key := KeyOf(demand[j]);
    FoldableExactly(ms, demand[j]);
    MembersAre(ms, demand, |demand|, key, demand[j]);
    GroupsCount(ms, demand, |demand|, key);
    PassInOrder(ms, demand, |demand|);
    SortedKeys(rank, f.order, key);
    FoldedHas(SortKeys(rank, f.order), f.groups, key);
    GroupStands(ms, demand, key);
    var n, gangs := FoldedNeed(key, f.groups[key]), Members(ms, demand, |demand|, key);
    assert n in Tail(rank, ms, demand) && StandsForAll(ms, n, gangs) && demand[j] in gangs;
  }
}
