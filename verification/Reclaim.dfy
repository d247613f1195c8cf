/** Phase 3: giving back what the cycle's attribution left unclaimed. */
module Reclaim {
  import opened Fleet
  import opened Views
  import opened Inventory
  import opened Order
  import opened Sequences

  datatype Release = Drain(id: MachineId, cluster: string) | Delete(id: MachineId)

  /** How long an unclaimed Idle machine is held; zero, like any capacity type without a
      hold, means for ever. */
  datatype ReleasePolicy = ReleasePolicy(onDemandHold: int, spotHold: int)

  function Hold(policy: ReleasePolicy, ct: CapacityType): Option<int> {
    match ct
    case OnDemand => if policy.onDemandHold > 0 then Some(policy.onDemandHold) else None
    case Spot => if policy.spotHold > 0 then Some(policy.spotHold) else None
    case _ => None
  }

  predicate Expired(m: Machine, policy: ReleasePolicy, idleSince: map<MachineId, int>, now: int) {
    Hold(policy, m.capacity).Some? && m.id in idleSince && now - idleSince[m.id] >= Hold(policy, m.capacity).value
  }

  predicate StrictNames(names: seq<string>) {
    forall i, j | 0 <= i < j < |names| :: LexLess(names[i], names[j])
  }

  function InsertName(c: string, names: seq<string>): seq<string> {
    if names == [] || LexLess(c, names[0]) then [c] + names
    else if c == names[0] then names
    else [names[0]] + InsertName(c, names[1..])
  }

  /** The clusters that hold a Configured machine, in name order. */
  function ClusterList(ms: seq<Machine>): seq<string> {
    if ms == [] then []
    else if ms[0].state == Configured && ms[0].cluster != "" then InsertName(ms[0].cluster, ClusterList(ms[1..]))
    else ClusterList(ms[1..])
  }

  function Drains(ms: seq<Machine>, cl: string): seq<Release> {
    seq(|ms|, i requires 0 <= i < |ms| => Drain(ms[i].id, cl))
  }

  /** The cluster's bound capacity in excess of its demand, cheapest to give back last. */
  function Excess(ms: seq<Machine>, claimed: set<MachineId>, cl: string): seq<Machine> {
    Sort(KeepPriority, Select(Without(claimed), Select(Bound(cl, Configured), ms)))
  }

  function Reclaims(ms: seq<Machine>, claimed: set<MachineId>, ready: set<string>,
                    clusters: seq<string>): seq<Release> {
    if clusters == [] then []
    else (if clusters[0] in ready then Drains(Excess(ms, claimed, clusters[0]), clusters[0]) else [])
         + Reclaims(ms, claimed, ready, clusters[1..])
  }

  function Deletes(idle: seq<Machine>, claimed: set<MachineId>, policy: ReleasePolicy, idleSince: map<MachineId, int>,
                   now: int): seq<Release>
  {
    if idle == [] then []
    else (if idle[0].id !in claimed && Expired(idle[0], policy, idleSince, now) then [Delete(idle[0].id)] else [])
         + Deletes(idle[1..], claimed, policy, idleSince, now)
  }

  /** Everything phase 3 emits. */
  function Released(ms: seq<Machine>, claimed: set<MachineId>, ready: set<string>, policy: ReleasePolicy,
                    idleSince: map<MachineId, int>, now: int): seq<Release>
  {
    Reclaims(ms, claimed, ready, ClusterList(ms))
    + Deletes(Select(InState(Idle), ms), claimed, policy, idleSince, now)
  }

  // ---- The walks ----------------------------------------------------------

  lemma InsertNameKeeps(c: string, names: seq<string>)
    requires StrictNames(names)
    ensures StrictNames(InsertName(c, names))
    ensures forall x :: x in InsertName(c, names) <==> x == c || x in names
  {
    if names != [] {
      LexTotal(c, names[0]);
      var h, t := names[0], names[1..];
      forall k | 0 <= k < |t|
        ensures LexLess(c, h) ==> LexLess(c, t[k])
      {
        if LexLess(c, h) {
          LexTransitive(c, h, t[k]);
        }
      }
      if !LexLess(c, h) && c != h {
        InsertNameKeeps(c, t);
        var rest := InsertName(c, t);
        forall k | 0 <= k < |rest|
          ensures LexLess(h, rest[k])
        {
          assert rest[k] in rest;
        }
      }
      assert forall x :: x in names <==> x == h || x in t;
    }
  }

  lemma ClusterListed(ms: seq<Machine>)
    ensures StrictNames(ClusterList(ms))
    ensures forall cl :: cl in ClusterList(ms) <==>
              cl != "" && exists m :: m in ms && m.state == Configured && m.cluster == cl
  {
    if ms != [] {
      ClusterListed(ms[1..]);
      if ms[0].state == Configured && ms[0].cluster != "" {
        InsertNameKeeps(ms[0].cluster, ClusterList(ms[1..]));
      }
      forall cl
        ensures cl in ClusterList(ms) <==>
                cl != "" && exists m :: m in ms && m.state == Configured && m.cluster == cl
      {
        assert (exists m :: m in ms && m.state == Configured && m.cluster == cl) <==>
               (ms[0].state == Configured && ms[0].cluster == cl) ||
               exists m :: m in ms[1..] && m.state == Configured && m.cluster == cl;
      }
    }
  }

  lemma {:induction false} NamesUnique(a: seq<string>, b: seq<string>)
    requires StrictNames(a) && StrictNames(b) && forall x :: x in a <==> x in b
    ensures a == b
    decreases |a|
  {
    if a == [] {
      SomeElement(b);
    } else {
      assert a[0] in b && b[0] in a;
      var i :| 0 <= i < |b| && b[i] == a[0];
      var j :| 0 <= j < |a| && a[j] == b[0];
      if a[0] != b[0] {
        LexTransitive(a[0], b[0], a[0]);
        LexIrreflexive(a[0]);
      }
      forall x
        ensures x in a[1..] <==> x in b[1..]
      {
        LexIrreflexive(a[0]);
        assert x in a <==> x == a[0] || x in a[1..];
        assert x in b <==> x == b[0] || x in b[1..];
      }
      NamesUnique(a[1..], b[1..]);
    }
  }

  lemma ConfiguredCell(snap: Snapshot, cl: string)
    requires snap.Agrees() && cl in snap.byCluster
    ensures Cell(snap.byCluster[cl], Configured) != [] <==>
            cl != "" && exists m :: m in snap.machines && m.state == Configured && m.cluster == cl
  {
    var bound := Select(Bound(cl, Configured), snap.machines);
    assert Cell(Row(snap.byCluster, cl), Configured) == Ids(bound);
    SomeElement(bound);
    assert bound == [] ==> forall m :: m !in bound;
    forall m {
      SelectIn(Bound(cl, Configured), snap.machines, m);
    }
  }

  lemma AbsentCluster(snap: Snapshot, cl: string)
    requires snap.Agrees() && cl !in snap.byCluster
    ensures !(cl != "" && exists m :: m in snap.machines && m.state == Configured && m.cluster == cl)
  {
    var bound := Select(Bound(cl, Configured), snap.machines);
    assert Cell(Row(snap.byCluster, cl), Configured) == Ids(bound);
    assert |Ids(bound)| == |bound| == 0;
    forall m {
      SelectIn(Bound(cl, Configured), snap.machines, m);
    }
  }

  method ClustersWithConfigured(snap: Snapshot) returns (names: seq<string>)
    requires snap.Agrees()
    ensures names == ClusterList(snap.machines)
  {
    names := [];
    var todo := snap.byCluster.Keys;
    while todo != {}
      invariant todo <= snap.byCluster.Keys && StrictNames(names)
      invariant forall cl :: cl in names <==>
                  cl in snap.byCluster && cl !in todo && Cell(snap.byCluster[cl], Configured) != []
      decreases todo
    {
      var cl :| cl in todo;
      todo := todo - {cl};
      if Cell(snap.byCluster[cl], Configured) != [] {
        InsertNameKeeps(cl, names);
        names := InsertName(cl, names);
      }
    }
    ClusterListed(snap.machines);
    forall cl
      ensures cl in names <==> cl in ClusterList(snap.machines)
    {
      if cl in snap.byCluster {
        ConfiguredCell(snap, cl);
      } else {
        AbsentCluster(snap, cl);
      }
    }
    NamesUnique(names, ClusterList(snap.machines));
  }

  /** The unclaimed machines of one cluster, in bucket order. */
  method DrainCluster(snap: Snapshot, claimed: set<MachineId>, cl: string) returns (out: seq<Release>)
    requires snap.Agrees()
    ensures out == Drains(Excess(snap.machines, claimed, cl), cl)
  {
    out := [];
    var bucket := snap.SortedClusterStateBucket(cl, Configured);
    ghost var kept: seq<Machine> := [];
    for i := 0 to |bucket|
      invariant kept == Select(Without(claimed), bucket[..i]) && out == Drains(kept, cl)
    {
      SelectConcat(Without(claimed), bucket[..i], [bucket[i]]);
      assert bucket[..i + 1] == bucket[..i] + [bucket[i]];
      if bucket[i].id !in claimed {
        out := out + [Drain(bucket[i].id, cl)];
        kept := kept + [bucket[i]];
      }
    }
    assert bucket[..|bucket|] == bucket;
    SelectSort(Without(claimed), KeepPriority, Select(Bound(cl, Configured), snap.machines));
  }

  method DrainExcess(snap: Snapshot, claimed: set<MachineId>, ready: set<string>) returns (actions: seq<Release>)
    requires snap.Agrees()
    ensures actions == Reclaims(snap.machines, claimed, ready, ClusterList(snap.machines))
  {
    actions := [];
    var clusters := ClustersWithConfigured(snap);
    ghost var all := Reclaims(snap.machines, claimed, ready, clusters);
    assert clusters[0..] == clusters && [] + all == all;
    for i := 0 to |clusters|
      invariant all == actions + Reclaims(snap.machines, claimed, ready, clusters[i..])
    {
      ReclaimsStep(snap.machines, claimed, ready, clusters, i, actions);
      var drained: seq<Release> := [];
      if clusters[i] in ready {
        drained := DrainCluster(snap, claimed, clusters[i]);
      }
      actions := actions + drained;
    }
    assert actions + [] == actions;
  }

  lemma ReclaimsStep(ms: seq<Machine>, claimed: set<MachineId>, ready: set<string>, clusters: seq<string>, i: nat,
                     actions: seq<Release>)
    requires i < |clusters|
    ensures actions + Reclaims(ms, claimed, ready, clusters[i..]) ==
            (actions + if clusters[i] in ready then Drains(Excess(ms, claimed, clusters[i]), clusters[i]) else [])
            + Reclaims(ms, claimed, ready, clusters[i + 1..])
  {
    assert clusters[i..][1..] == clusters[i + 1..];
  }

  method DeleteExpired(snap: Snapshot, claimed: set<MachineId>, policy: ReleasePolicy, now: int)
    returns (actions: seq<Release>)
    requires snap.Agrees()
    ensures actions == Deletes(Select(InState(Idle), snap.machines), claimed, policy, snap.idleSince, now)
  {
    actions := [];
    var idle := snap.ListByState(Idle);
    ghost var all := Deletes(idle, claimed, policy, snap.idleSince, now);
    assert idle[0..] == idle && [] + all == all;
    for i := 0 to |idle|
      invariant all == actions + Deletes(idle[i..], claimed, policy, snap.idleSince, now)
    {
      assert idle[i..][1..] == idle[i + 1..];
      var deleted: seq<Release> := [];
      if idle[i].id !in claimed && Expired(idle[i], policy, snap.idleSince, now) {
        deleted := [Delete(idle[i].id)];
      }
      Regroup(actions, deleted, Deletes(idle[i + 1..], claimed, policy, snap.idleSince, now));
      actions := actions + deleted;
    }
    assert actions + [] == actions;
  }

  method Phase3(snap: Snapshot, claimed: set<MachineId>, ready: set<string>, policy: ReleasePolicy, now: int)
    returns (actions: seq<Release>)
    requires snap.Agrees()
    ensures actions == Released(snap.machines, claimed, ready, policy, snap.idleSince, now)
  {
    var drains := DrainExcess(snap, claimed, ready);
    var deletes := DeleteExpired(snap, claimed, policy, now);
    actions := drains + deletes;
  }

  // ---- What is released ---------------------------------------------------

  lemma ExcessIn(ms: seq<Machine>, claimed: set<MachineId>, cl: string, m: Machine)
    ensures m in Excess(ms, claimed, cl) <==>
            m in ms && m.state == Configured && m.cluster == cl && cl != "" && m.id !in claimed
  {
    SortIn(KeepPriority, Select(Without(claimed), Select(Bound(cl, Configured), ms)), m);
    SelectIn(Without(claimed), Select(Bound(cl, Configured), ms), m);
    SelectIn(Bound(cl, Configured), ms, m);
  }

  lemma DrainsIn(ms: seq<Machine>, cl: string, r: Release)
    ensures r in Drains(ms, cl) <==> r.Drain? && r.cluster == cl && exists m :: m in ms && m.id == r.id
  {
    if r.Drain? && r.cluster == cl && exists m :: m in ms && m.id == r.id {
      var i :| 0 <= i < |ms| && ms[i].id == r.id;
      assert Drains(ms, cl)[i] == r;
    }
    if r in Drains(ms, cl) {
      var i :| 0 <= i < |ms| && Drains(ms, cl)[i] == r;
      assert ms[i] in ms;
    }
  }

  lemma ReclaimsIn(ms: seq<Machine>, claimed: set<MachineId>, ready: set<string>, clusters: seq<string>, r: Release)
    ensures r in Reclaims(ms, claimed, ready, clusters) <==>
            r.Drain? && r.cluster in clusters && r.cluster in ready &&
            exists m :: m in Excess(ms, claimed, r.cluster) && m.id == r.id
  {
    if clusters != [] {
      ReclaimsIn(ms, claimed, ready, clusters[1..], r);
      DrainsIn(Excess(ms, claimed, clusters[0]), clusters[0], r);
    }
  }

  lemma DeletesIn(idle: seq<Machine>, claimed: set<MachineId>, policy: ReleasePolicy, idleSince: map<MachineId, int>,
                  now: int, r: Release)
    ensures r in Deletes(idle, claimed, policy, idleSince, now) <==>
            r.Delete? && exists m :: m in idle && m.id == r.id && m.id !in claimed && Expired(m, policy, idleSince, now)
  {
    if idle != [] {
      DeletesIn(idle[1..], claimed, policy, idleSince, now, r);
      assert (exists m :: m in idle && m.id == r.id && m.id !in claimed && Expired(m, policy, idleSince, now)) <==>
             (idle[0].id == r.id && idle[0].id !in claimed && Expired(idle[0], policy, idleSince, now)) ||
             exists m :: m in idle[1..] && m.id == r.id && m.id !in claimed && Expired(m, policy, idleSince, now);
    }
  }

  predicate MayRelease(m: Machine, claimed: set<MachineId>, ready: set<string>, policy: ReleasePolicy,
                       idleSince: map<MachineId, int>, now: int, r: Release)
  {
    m.id == r.id && m.id !in claimed &&
    match r
    case Drain(_, cl) => m.state == Configured && m.cluster == cl && cl != "" && cl in ready
    case Delete(_) =>
      m.state == Idle && m.id in idleSince &&
      ((m.capacity == OnDemand && 0 < policy.onDemandHold <= now - idleSince[m.id]) ||
       (m.capacity == Spot && 0 < policy.spotHold <= now - idleSince[m.id]))
  }

  /** Shrinkage only: drained are exactly the unclaimed Configured machines of the ready
      clusters, deleted exactly the unclaimed Idle ones whose hold has run out. */
  lemma ReleasedExactly(ms: seq<Machine>, claimed: set<MachineId>, ready: set<string>, policy: ReleasePolicy,
                        idleSince: map<MachineId, int>, now: int, r: Release)
    ensures r in Released(ms, claimed, ready, policy, idleSince, now) <==>
            exists m :: m in ms && MayRelease(m, claimed, ready, policy, idleSince, now, r)
  {
    ReclaimsIn(ms, claimed, ready, ClusterList(ms), r);
    DeletesIn(Select(InState(Idle), ms), claimed, policy, idleSince, now, r);
    ClusterListed(ms);
    forall m
      ensures m in Select(InState(Idle), ms) <==> m in ms && m.state == Idle
    {
      SelectIn(InState(Idle), ms, m);
    }
    if r.Drain? {
      forall m
        ensures m in Excess(ms, claimed, r.cluster) <==>
                m in ms && m.state == Configured && m.cluster == r.cluster && r.cluster != "" && m.id !in claimed
      {
        ExcessIn(ms, claimed, r.cluster, m);
      }
    }
  }

  /** Owned hardware is never released, whatever the policy and however long it idled;
      and a policy without holds releases nothing. */
  lemma OwnedHardwareKept(ms: seq<Machine>, claimed: set<MachineId>, ready: set<string>, policy: ReleasePolicy,
                          idleSince: map<MachineId, int>, now: int, m: Machine)
    requires Unique(ms) && m in ms && m.state == Idle
    requires (m.capacity != OnDemand && m.capacity != Spot) || (policy.onDemandHold <= 0 && policy.spotHold <= 0)
    ensures Delete(m.id) !in Released(ms, claimed, ready, policy, idleSince, now)
  {
    ReleasedExactly(ms, claimed, ready, policy, idleSince, now, Delete(m.id));
  }

  // ---- In which order -----------------------------------------------------

  /** The first of the two is given back before the second: its cluster comes first by name,
      or in one cluster it is the one worth more to keep. */
  ghost predicate InTurn(ms: seq<Machine>, r: Release, s: Release) {
    r.Drain? && s.Drain? &&
    (LexLess(r.cluster, s.cluster) ||
     (r.cluster == s.cluster &&
      exists a, b :: a in ms && b in ms && a.id == r.id && b.id == s.id && WorthKeeping(a, b)))
  }

  lemma ExcessInTurn(ms: seq<Machine>, claimed: set<MachineId>, cl: string, i: nat, j: nat)
    requires Unique(ms) && i < j < |Excess(ms, claimed, cl)|
    ensures InTurn(ms, Drains(Excess(ms, claimed, cl), cl)[i], Drains(Excess(ms, claimed, cl), cl)[j])
  {
    var bound := Select(Bound(cl, Configured), ms);
    var free := Select(Without(claimed), bound);
    var s := Excess(ms, claimed, cl);
    SelectUnique(Bound(cl, Configured), ms);
    SelectUnique(Without(claimed), bound);
    SortUnique(KeepPriority, free);
    SortSorted(KeepPriority, free);
    assert s[i].id != s[j].id && !Before(KeepPriority, s[j], s[i]) && s[i] in s && s[j] in s;
    NoTies(KeepPriority, s[i], s[j]);
    KeepPriorityMeans(s[i], s[j]);
    ExcessIn(ms, claimed, cl, s[i]);
    ExcessIn(ms, claimed, cl, s[j]);
  }

  lemma LaterInTurn(ms: seq<Machine>, claimed: set<MachineId>, ready: set<string>, clusters: seq<string>, cl: string,
                    r: Release, s: Release)
    requires StrictNames([cl] + clusters) && r.Drain? && r.cluster == cl
    requires s in Reclaims(ms, claimed, ready, clusters)
    ensures InTurn(ms, r, s)
  {
    ReclaimsIn(ms, claimed, ready, clusters, s);
    var all := [cl] + clusters;
    var k :| 0 <= k < |clusters| && clusters[k] == s.cluster;
    assert LexLess(all[0], all[k + 1]);
  }

  ghost predicate AllInTurn(ms: seq<Machine>, s: seq<Release>) {
    forall i, j | 0 <= i < j < |s| :: InTurn(ms, s[i], s[j])
  }

  lemma JoinedInTurn(ms: seq<Machine>, head: seq<Release>, tail: seq<Release>)
    requires AllInTurn(ms, head) && AllInTurn(ms, tail)
    requires forall i, j | 0 <= i < |head| && 0 <= j < |tail| :: InTurn(ms, head[i], tail[j])
    ensures AllInTurn(ms, head + tail)
  {
    var all := head + tail;
    forall i, j | 0 <= i < j < |all|
      ensures InTurn(ms, all[i], all[j])
    {
      assert all[i] == if i < |head| then head[i] else tail[i - |head|];
      assert all[j] == if j < |head| then head[j] else tail[j - |head|];
    }
  }

  lemma ClusterInTurn(ms: seq<Machine>, claimed: set<MachineId>, cl: string)
    requires Unique(ms)
    ensures AllInTurn(ms, Drains(Excess(ms, claimed, cl), cl))
  {
    forall i, j | 0 <= i < j < |Drains(Excess(ms, claimed, cl), cl)|
      ensures InTurn(ms, Drains(Excess(ms, claimed, cl), cl)[i], Drains(Excess(ms, claimed, cl), cl)[j])
    {
      ExcessInTurn(ms, claimed, cl, i, j);
    }
  }

  /** Drains go cluster by cluster in name order, and within one in keep-priority order. */
  lemma {:induction false} DrainsInTurn(ms: seq<Machine>, claimed: set<MachineId>, ready: set<string>,
                                        clusters: seq<string>)
    requires Unique(ms) && StrictNames(clusters)
    ensures AllInTurn(ms, Reclaims(ms, claimed, ready, clusters))
    decreases |clusters|
  {
    if clusters != [] {
      var cl, rest := clusters[0], clusters[1..];
      assert clusters == [cl] + rest;
      var head := if cl in ready then Drains(Excess(ms, claimed, cl), cl) else [];
      var tail := Reclaims(ms, claimed, ready, rest);
      ClusterInTurn(ms, claimed, cl);
      DrainsInTurn(ms, claimed, ready, rest);
      forall i, j | 0 <= i < |head| && 0 <= j < |tail|
        ensures InTurn(ms, head[i], tail[j])
      {
        LaterInTurn(ms, claimed, ready, rest, cl, head[i], tail[j]);
      }
      JoinedInTurn(ms, head, tail);
    }
  }

  /** What phase 3 emits: all drains, in that order, before any delete. */
  lemma ReleasedInTurn(ms: seq<Machine>, claimed: set<MachineId>, ready: set<string>, policy: ReleasePolicy,
                       idleSince: map<MachineId, int>, now: int, i: nat, j: nat)
    requires Unique(ms) && i < j < |Released(ms, claimed, ready, policy, idleSince, now)|
    ensures var all := Released(ms, claimed, ready, policy, idleSince, now);
            all[j].Delete? || InTurn(ms, all[i], all[j])
  {
    var drains := Reclaims(ms, claimed, ready, ClusterList(ms));
    var deletes := Deletes(Select(InState(Idle), ms), claimed, policy, idleSince, now);
    ClusterListed(ms);
    if j < |drains| {
      DrainsInTurn(ms, claimed, ready, ClusterList(ms));
    } else {
      assert deletes[j - |drains|] in deletes;
      DeletesIn(Select(InState(Idle), ms), claimed, policy, idleSince, now, deletes[j - |drains|]);
    }
  }
}
