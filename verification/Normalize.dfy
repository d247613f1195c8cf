/** Demand normalisation: gangs small enough for one machine are folded, class by class,
    into one plain Need each. */
module Normalize {
  import opened Resources
  import opened Fleet
  import opened Views
  import opened Inventory
  import opened Pools

  /** Hosts the whole aggregate of a gang of the Profile. */
  predicate Roomy(p: Profile, agg: ResVec, m: Machine) {
    Matches(p, m) && Covers(Alloc(m), agg)
  }

  predicate ClusterFits(ms: seq<Machine>, cluster: string, p: Profile, agg: ResVec) {
    exists m :: m in Select(Bound(cluster, Configured), ms) + Select(Bound(cluster, Configuring), ms) &&
        Roomy(p, agg, m)
  }

  predicate ShardFits(ms: seq<Machine>, p: Profile, agg: ResVec) {
    exists m :: m in Source(ms, Idle, p) + Source(ms, Speculative, p) && Roomy(p, agg, m)
  }

  /** Some machine the gang could use hosts the whole of it. */
  predicate Foldable(ms: seq<Machine>, n: Need) {
    SameKey(n.profile).Some? &&
    (ClusterFits(ms, n.cluster, n.profile, n.aggregate) || ShardFits(ms, n.profile, n.aggregate))
  }

  function DropSame(rs: seq<Requirement>): seq<Requirement> {
    if rs == [] then []
    else if rs[0].op == Same then DropSame(rs[1..])
    else [rs[0]] + DropSame(rs[1..])
  }

  /** The Profile without its Same requirement. */
  function Stripped(p: Profile): Profile {
    p.(requirements := DropSame(p.requirements))
  }

  lemma DropSameIn(rs: seq<Requirement>, r: Requirement)
    ensures r in DropSame(rs) <==> r in rs && r.op != Same
  {
    if rs != [] {
      DropSameIn(rs[1..], r);
    }
  }

  lemma StrippedPlain(p: Profile, m: Machine)
    ensures SameKey(Stripped(p)).None?
    ensures Matches(p, m) ==> Matches(Stripped(p), m)
  {
    SameRequirement(DropSame(p.requirements));
    forall r
      ensures r in DropSame(p.requirements) <==> r in p.requirements && r.op != Same
    {
      DropSameIn(p.requirements, r);
    }
  }

  // ---- What the fold means ------------------------------------------------

  datatype GroupKey = GroupKey(cluster: string, profile: Profile, aggregate: ResVec)

  datatype Group = Group(count: nat, arrival: int)

  function KeyOf(n: Need): GroupKey {
    GroupKey(n.cluster, Stripped(n.profile), n.aggregate)
  }

  function FoldedNeed(k: GroupKey, g: Group): Need {
    Need(k.cluster, k.profile, Scale(k.aggregate, g.count), k.aggregate, g.arrival, "", false)
  }

  /** The state of one pass over the demand. */
  datatype Folding = Folding(out: seq<Need>, groups: map<GroupKey, Group>, order: seq<GroupKey>)

  /** Opens a class on first sight ... */
  function Begin(f: Folding, k: GroupKey): Folding {
    if k in f.groups then f else f.(groups := f.groups[k := Group(0, 0)], order := f.order + [k])
  }

  /** ... and counts one more member of it. */
  function Join(f: Folding, k: GroupKey, arrival: int): Folding
    requires k in f.groups
  {
    f.(groups := f.groups[k := Group(f.groups[k].count + 1, Earlier(f.groups[k].arrival, arrival))])
  }

  function Step(ms: seq<Machine>, f: Folding, n: Need): Folding {
    if Foldable(ms, n) then Join(Begin(f, KeyOf(n)), KeyOf(n), n.arrival) else f.(out := f.out + [n])
  }

  function FoldAll(ms: seq<Machine>, demand: seq<Need>, k: nat): Folding
    requires k <= |demand|
  {
    if k == 0 then Folding([], map[], []) else Step(ms, FoldAll(ms, demand, k - 1), demand[k - 1])
  }

  function Folded(keys: seq<GroupKey>, groups: map<GroupKey, Group>): seq<Need> {
    if keys == [] then []
    else (if keys[0] in groups then [FoldedNeed(keys[0], groups[keys[0]])] else []) + Folded(keys[1..], groups)
  }

  /** Sorting by a rank of the keys. The program ranks by cluster, then by the Profile's
      canonical text, then by that of the aggregate; the results hold for any rank. */
  function InsertKey(rank: GroupKey -> int, k: GroupKey, keys: seq<GroupKey>): seq<GroupKey> {
    if keys == [] || rank(k) <= rank(keys[0]) then [k] + keys else [keys[0]] + InsertKey(rank, k, keys[1..])
  }

  function SortKeys(rank: GroupKey -> int, keys: seq<GroupKey>): seq<GroupKey> {
    if keys == [] then [] else InsertKey(rank, keys[0], SortKeys(rank, keys[1..]))
  }

  /** The normalised demand: what is not folded, in order, then one Need a class. */
  function Normalized(rank: GroupKey -> int, ms: seq<Machine>, demand: seq<Need>): seq<Need> {
    var f := FoldAll(ms, demand, |demand|);
    f.out + Folded(SortKeys(rank, f.order), f.groups)
  }

  // ---- The pass with its memos --------------------------------------------

  method AnyRoomy(src: seq<Machine>, p: Profile, agg: ResVec) returns (found: bool)
    ensures found == exists m :: m in src && Roomy(p, agg, m)
  {
    for i := 0 to |src|
      invariant forall j | 0 <= j < i :: !Roomy(p, agg, src[j])
    {
      if Roomy(p, agg, src[i]) {
        return true;
      }
    }
    found := false;
  }

  class Normalizer {
    const snap: Snapshot
    var stripped: map<Profile, Profile>
    var clusterFit: map<GroupKey, bool>
    var shardFit: map<(Profile, ResVec), bool>

    constructor (s: Snapshot)
      requires s.Agrees()
      ensures Valid() && snap == s
    {
      snap, stripped, clusterFit, shardFit := s, map[], map[], map[];
    }

    /** Every memo says what asking afresh would. */
    ghost predicate Valid()
      reads this
    {
      && snap.Agrees()
      && (forall p | p in stripped :: stripped[p] == Stripped(p))
      && (forall k | k in clusterFit :: clusterFit[k] == ClusterFits(snap.machines, k.cluster, k.profile, k.aggregate))
      && (forall k | k in shardFit :: shardFit[k] == ShardFits(snap.machines, k.0, k.1))
    }

    method StrippedFor(p: Profile) returns (s: Profile)
      requires Valid()
      modifies `stripped
      ensures Valid() && s == Stripped(p)
    {
      if p !in stripped {
        stripped := stripped[p := Stripped(p)];
      }
      s := stripped[p];
    }

    method ClusterHasFit(cluster: string, p: Profile, agg: ResVec) returns (fit: bool)
      requires Valid()
      ensures fit == ClusterFits(snap.machines, cluster, p, agg)
    {
      var configured := snap.ListByClusterState(cluster, Configured);
      fit := AnyRoomy(configured, p, agg);
      if !fit {
        var configuring := snap.ListByClusterState(cluster, Configuring);
        fit := AnyRoomy(configuring, p, agg);
      }
    }

    method ShardHasFit(p: Profile, agg: ResVec) returns (fit: bool)
      requires Valid()
      ensures fit == ShardFits(snap.machines, p, agg)
    {
      var idle := SourceOf(snap, Idle, p);
      fit := AnyRoomy(idle, p, agg);
      if !fit {
        var speculative := SourceOf(snap, Speculative, p);
        fit := AnyRoomy(speculative, p, agg);
      }
    }

    method ClusterMemo(n: Need) returns (fit: bool)
      requires Valid()
      modifies `clusterFit
      ensures Valid() && fit == ClusterFits(snap.machines, n.cluster, n.profile, n.aggregate)
    {
      var k := GroupKey(n.cluster, n.profile, n.aggregate);
      if k !in clusterFit {
        var c := ClusterHasFit(n.cluster, n.profile, n.aggregate);
        clusterFit := clusterFit[k := c];
      }
      fit := clusterFit[k];
    }

    method ShardMemo(n: Need) returns (fit: bool)
      requires Valid()
      modifies `shardFit
      ensures Valid() && fit == ShardFits(snap.machines, n.profile, n.aggregate)
    {
      var k := (n.profile, n.aggregate);
      if k !in shardFit {
        var s := ShardHasFit(n.profile, n.aggregate);
        shardFit := shardFit[k := s];
      }
      fit := shardFit[k];
    }

    method FoldableFor(n: Need) returns (fit: bool)
      requires Valid() && SameKey(n.profile).Some?
      modifies `clusterFit, `shardFit
      ensures Valid() && fit == Foldable(snap.machines, n)
    {
      fit := ClusterMemo(n);
      if !fit {
        fit := ShardMemo(n);
      }
    }

    /** One Need of the demand. */
    method Take(f0: Folding, n: Need) returns (f: Folding)
      requires Valid()
      modifies this
      ensures Valid() && f == Step(snap.machines, f0, n)
    {
      f := f0;
      if SameKey(n.profile).None? {
        f := f.(out := f.out + [n]);
        return;
      }
      var fit := FoldableFor(n);
      if !fit {
        f := f.(out := f.out + [n]);
        return;
      }
      var plain := StrippedFor(n.profile);
      var k := GroupKey(n.cluster, plain, n.aggregate);
      f := Join(Begin(f, k), k, n.arrival);
    }
  }

  method EmitFolded(keys: seq<GroupKey>, groups: map<GroupKey, Group>) returns (out: seq<Need>)
    ensures out == Folded(keys, groups)
  {
    out := [];
    for i := 0 to |keys|
      invariant Folded(keys, groups) == out + Folded(keys[i..], groups)
    {
      assert keys[i..][1..] == keys[i + 1..];
      if keys[i] in groups {
        var k, g := keys[i], groups[keys[i]];
        var total := ScaleResources(k.aggregate, g.count);
        out := out + [Need(k.cluster, k.profile, total, k.aggregate, g.arrival, "", false)];
        assert g.count == 0 ==> total == map[];
      }
    }
  }

  /** The memoised pass gives the plain fold. A demand without gangs is returned as it
      came. */
  method NormalizeDemand(snap: Snapshot, demand: seq<Need>, rank: GroupKey -> int) returns (out: seq<Need>)
    requires snap.Agrees()
    ensures out == Normalized(rank, snap.machines, demand)
  {
    var gangs := false;
    for i := 0 to |demand|
      invariant gangs <==> exists j :: 0 <= j < i && SameKey(demand[j].profile).Some?
    {
      gangs := gangs || SameKey(demand[i].profile).Some?;
    }
    if !gangs {
      NoGangs(snap.machines, demand, |demand|);
      return demand;
    }
    var z := new Normalizer(snap);
    var f := Folding([], map[], []);
    for i := 0 to |demand|
      invariant z.Valid() && z.snap == snap && f == FoldAll(snap.machines, demand, i)
    {
      f := z.Take(f, demand[i]);
    }
    var folded := EmitFolded(SortKeys(rank, f.order), f.groups);
    out := f.out + folded;
  }

  lemma NoGangs(ms: seq<Machine>, demand: seq<Need>, k: nat)
    requires k <= |demand| && forall j | 0 <= j < k :: !Foldable(ms, demand[j])
    ensures FoldAll(ms, demand, k) == Folding(demand[..k], map[], [])
  {
    if k > 0 {
      NoGangs(ms, demand, k - 1);
      assert demand[..k] == demand[..k - 1] + [demand[k - 1]];
    }
  }
}
