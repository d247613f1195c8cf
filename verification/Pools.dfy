/** Where a Profile's machines of one state come from, and the per-cycle cache of the
    sorted pools. */
module Pools {
  import opened Fleet
  import opened Views
  import opened Inventory
  import opened Sequences

  lemma NextBucket(ms: seq<Machine>, st: State, types: seq<string>, i: nat, pool: seq<Machine>)
    requires i < |types|
    ensures pool + TypeBuckets(ms, st, types[i..]) ==
            (pool + TypeBucket(ms, st, types[i])) + TypeBuckets(ms, st, types[i + 1..])
  {
    assert types[i..][1..] == types[i + 1..];
    Regroup(pool, TypeBucket(ms, st, types[i]), TypeBuckets(ms, st, types[i + 1..]));
  }

  method PinnedSource(snap: Snapshot, st: State, types: seq<string>) returns (pool: seq<Machine>)
    requires snap.Agrees()
    ensures pool == TypeBuckets(snap.machines, st, types)
  {
    pool := [];
    for i := 0 to |types|
      invariant TypeBuckets(snap.machines, st, types) == pool + TypeBuckets(snap.machines, st, types[i..])
    {
      NextBucket(snap.machines, st, types, i, pool);
      pool := pool + snap.ListByStateInstanceType(st, types[i]);
    }
  }

  /** A pinned Profile reads its types' buckets, any other the whole state. */
  method SourceOf(snap: Snapshot, st: State, p: Profile) returns (pool: seq<Machine>)
    requires snap.Agrees()
    ensures pool == Source(snap.machines, st, p)
  {
    match PinnedTypes(p)
    case None => pool := snap.ListByState(st);
    case Some(types) => pool := PinnedSource(snap, st, types);
  }

  class PoolCache {
    const snap: Snapshot
    var pools: map<(State, Profile), seq<Machine>>

    constructor (s: Snapshot)
      requires s.Agrees()
      ensures Valid() && snap == s && pools == map[]
    {
      snap, pools := s, map[];
    }

    ghost predicate Valid()
      reads this
    {
      snap.Agrees() && forall k | k in pools :: pools[k] == Pool(snap.machines, k.0, k.1)
    }

    /** The pool, built on first use. */
    method Get(st: State, p: Profile) returns (pool: seq<Machine>)
      requires Valid()
      modifies this
      ensures Valid() && pool == Pool(snap.machines, st, p)
    {
      if (st, p) !in pools {
        var built := Build(st, p);
        pools := pools[(st, p) := built];
      }
      pool := pools[(st, p)];
    }

    /** One pinned type needs no sort for Idle: its bucket already has the order. */
    method Build(st: State, p: Profile) returns (pool: seq<Machine>)
      requires Valid()
      ensures pool == Pool(snap.machines, st, p)
    {
      var types := PinnedTypes(p);
      if st == Idle && types.Some? && |types.value| == 1 {
        pool := snap.ListByStateInstanceType(st, types.value[0]);
        OneTypeSorted(snap.machines, st, types.value);
        return;
      }
      pool := SourceOf(snap, st, p);
      if |pool| > 1 {
        pool := Sort(PoolOrder(st, p), pool);
      } else {
        SortedStays(PoolOrder(st, p), pool);
      }
    }
  }

  lemma OneTypeSorted(ms: seq<Machine>, st: State, types: seq<string>)
    requires |types| == 1
    ensures Sort(ByPrice, TypeBuckets(ms, st, types)) == TypeBucket(ms, st, types[0])
  {
    var one := TypeBucket(ms, st, types[0]);
    assert TypeBuckets(ms, st, types[1..]) == [] && one + [] == one;
    SortSorted(ByPrice, Select(OfType(st, types[0]), ms));
    SortedStays(ByPrice, TypeBucket(ms, st, types[0]));
  }

  /** A pool that misses its only machine: pinned to a type the machine carries as a label. */
  lemma PoolLoses()
    ensures var m := Machine(0, Idle, true, "", "", OnDemand, "", "", map[INSTANCE_TYPE_KEY := "m5"], 1.0, 0.0,
                             map["cpu" := 1], map[], 0, Amount(0.0), Amount(0.0), None, "");
            var p := Profile([Requirement(INSTANCE_TYPE_KEY, In, ["m5"])], [], 0, 0, 0);
            WellFormed(m) && Matches(p, m) && Pool([m], Idle, p) == []
  {
    var m := Machine(0, Idle, true, "", "", OnDemand, "", "", map[INSTANCE_TYPE_KEY := "m5"], 1.0, 0.0,
                     map["cpu" := 1], map[], 0, Amount(0.0), Amount(0.0), None, "");
    var p := Profile([Requirement(INSTANCE_TYPE_KEY, In, ["m5"])], [], 0, 0, 0);
    PoolMisses([m], Idle, p, m);
    forall x | x in Pool([m], Idle, p)
      ensures x == m
    {
      PoolIn([m], Idle, p, x);
    }
    SomeElement(Pool([m], Idle, p));
  }
}
