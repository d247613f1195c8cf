/** The roll-up of raw demand into one Need a class, and the shard's demand table. */
module Demand {
  import opened Fleet
  import opened Order
  import opened Resources
  import opened Sequences

  // ---- Rolling up ---------------------------------------------------------

  function Joined(a: Need, b: Need): Need {
    a.(aggregate := Add(a.aggregate, b.aggregate), minUnit := Max(a.minUnit, b.minUnit),
       arrival := Earlier(a.arrival, b.arrival))
  }

  /** All members of a class folded into its first. */
  function RolledUp(ns: seq<Need>, k: ClassKey): Option<Need> {
    if ns == [] then None
    else
      var before, n := RolledUp(ns[..|ns| - 1], k), ns[|ns| - 1];
      if ClassOf(n) != k then before
      else if before.None? then Some(n)
      else Some(Joined(before.value, n))
  }

  /** The roll-up: every class once, in order of first appearance. */
  ghost predicate IsRollUp(ns: seq<Need>, out: seq<Need>) {
    && (forall i, j | 0 <= i < j < |out| :: ClassOf(out[i]) != ClassOf(out[j]))
    && (forall n | n in out :: RolledUp(ns, ClassOf(n)) == Some(n))
    && (forall n | n in ns :: exists r :: r in out && ClassOf(r) == ClassOf(n))
  }

  /** Where each class's row is. */
  predicate Indexed(idx: map<ClassKey, nat>, out: seq<Need>) {
    && (forall k | k in idx :: idx[k] < |out| && ClassOf(out[idx[k]]) == k)
    && (forall i | 0 <= i < |out| :: ClassOf(out[i]) in idx && idx[ClassOf(out[i])] == i)
  }

  lemma RolledNext(ns: seq<Need>, n: Need, k: ClassKey)
    ensures RolledUp(ns + [n], k) ==
            if ClassOf(n) != k then RolledUp(ns, k)
            else if RolledUp(ns, k).None? then Some(n) else Some(Joined(RolledUp(ns, k).value, n))
  {
    assert (ns + [n])[..|ns|] == ns;
  }

  /** The rows so far are the roll-up of what has been read. */
  ghost predicate Rolled(ns: seq<Need>, idx: map<ClassKey, nat>, out: seq<Need>)
    requires Indexed(idx, out)
  {
    forall k :: RolledUp(ns, k) == if k in idx then Some(out[idx[k]]) else None
  }

  lemma RollJoin(ns: seq<Need>, idx: map<ClassKey, nat>, out: seq<Need>, n: Need)
    requires Indexed(idx, out) && Rolled(ns, idx, out) && ClassOf(n) in idx
    ensures var at := idx[ClassOf(n)];
            var next := out[at := Joined(out[at], n)];
            Indexed(idx, next) && Rolled(ns + [n], idx, next)
  {
    var at := idx[ClassOf(n)];
    var next := out[at := Joined(out[at], n)];
    forall k
      ensures RolledUp(ns + [n], k) == if k in idx then Some(next[idx[k]]) else None
    {
      RolledNext(ns, n, k);
    }
  }

  lemma RollNew(ns: seq<Need>, idx: map<ClassKey, nat>, out: seq<Need>, n: Need)
    requires Indexed(idx, out) && Rolled(ns, idx, out) && ClassOf(n) !in idx
    ensures var next := idx[ClassOf(n) := |out|];
            Indexed(next, out + [n]) && Rolled(ns + [n], next, out + [n])
  {
    var next := idx[ClassOf(n) := |out|];
    forall k
      ensures RolledUp(ns + [n], k) == if k in next then Some((out + [n])[next[k]]) else None
    {
      RolledNext(ns, n, k);
    }
  }

  lemma RolledAll(ns: seq<Need>, idx: map<ClassKey, nat>, out: seq<Need>)
    requires Indexed(idx, out) && Rolled(ns, idx, out) && forall n | n in ns :: ClassOf(n) in idx
    ensures IsRollUp(ns, out)
  {
    forall n | n in ns
      ensures exists r :: r in out && ClassOf(r) == ClassOf(n)
    {
      assert out[idx[ClassOf(n)]] in out;
    }
  }

  method Aggregate(ns: seq<Need>) returns (out: seq<Need>)
    ensures IsRollUp(ns, out)
  {
    out := [];
    var idx: map<ClassKey, nat> := map[];
    assert Rolled(ns[..0], idx, out);
    for i := 0 to |ns|
      invariant Indexed(idx, out) && Rolled(ns[..i], idx, out)
      invariant forall j | 0 <= j < i :: ClassOf(ns[j]) in idx
    {
      var n := ns[i];
      var k := ClassOf(n);
      assert ns[..i + 1] == ns[..i] + [n];
      if k in idx {
        RollJoin(ns[..i], idx, out, n);
        out := out[idx[k] := Joined(out[idx[k]], n)];
      } else {
        RollNew(ns[..i], idx, out, n);
        idx := idx[k := |out|];
        out := out + [n];
      }
    }
    assert ns[..|ns|] == ns;
    RolledAll(ns, idx, out);
  }

  function Members(ns: seq<Need>, k: ClassKey): seq<Need> {
    if ns == [] then []
    else Members(ns[..|ns| - 1], k) + if ClassOf(ns[|ns| - 1]) == k then [ns[|ns| - 1]] else []
  }

  function Total(ns: seq<Need>): ResVec {
    if ns == [] then map[] else Add(Total(ns[..|ns| - 1]), ns[|ns| - 1].aggregate)
  }

  /** The least unit of a row: it covers every member's, and some member asks for each
      dimension of it. */
  predicate LeastUnit(unit: ResVec, ns: seq<Need>) {
    && (forall n | n in ns :: Covers(unit, n.minUnit))
    && (forall d | d in unit :: exists n :: n in ns && Qty(n.minUnit, d) == unit[d])
  }

  lemma JoinedUnit(unit: ResVec, ns: seq<Need>, n: Need)
    requires ns != [] && LeastUnit(unit, ns)
    ensures LeastUnit(Max(unit, n.minUnit), ns + [n])
  {
    var max := Max(unit, n.minUnit);
    forall x | x in ns + [n]
      ensures Covers(max, x.minUnit)
    {
      if x in ns {
        CoversMore(max, unit, x.minUnit);
      }
    }
    forall d | d in max
      ensures exists x :: x in ns + [n] && Qty(x.minUnit, d) == max[d]
    {
      if Qty(unit, d) < Qty(n.minUnit, d) {
        assert n in ns + [n];
      } else if d in unit {
        var x :| x in ns && Qty(x.minUnit, d) == unit[d];
        assert x in ns + [n];
      } else {
        assert max[d] == 0 && Qty(n.minUnit, d) == 0 && n in ns + [n];
      }
    }
  }

  /** What a row of the roll-up amounts to: the members' joint demand, and the unit that
      the most demanding of them need. */
  predicate Means(row: Need, k: ClassKey, ms: seq<Need>) {
    && ClassOf(row) == k && row.aggregate == Total(ms) && LeastUnit(row.minUnit, ms)
    && EarliestKnown(row.arrival, ms)
  }

  lemma MeansOne(n: Need)
    ensures Means(n, ClassOf(n), [n])
  {
    assert [n][..0] == [];
    assert Total([n]) == Add(Total([]), n.aggregate);
    AddNothing(n.aggregate);
    assert n in [n];
  }

  lemma MeansNext(row: Need, k: ClassKey, ms: seq<Need>, n: Need)
    requires ms != [] && Means(row, k, ms)
    ensures Means(Joined(row, n), k, ms + [n])
  {
    assert (ms + [n])[..|ms|] == ms;
    JoinedUnit(row.minUnit, ms, n);
    EarliestNext(row.arrival, ms, n);
  }

  lemma {:induction false} RowMeans(ns: seq<Need>, k: ClassKey)
    ensures RolledUp(ns, k).None? <==> Members(ns, k) == []
    ensures RolledUp(ns, k).Some? ==> Means(RolledUp(ns, k).value, k, Members(ns, k))
    decreases |ns|
  {
    if ns != [] {
      var before, n := ns[..|ns| - 1], ns[|ns| - 1];
      RowMeans(before, k);
      var ms := Members(before, k);
      if ClassOf(n) != k {
        assert ms + [] == ms;
      } else if ms == [] {
        assert ms + [n] == [n];
        MeansOne(n);
      } else {
        MeansNext(RolledUp(before, k).value, k, ms, n);
      }
    }
  }

  /** The members are the Needs of the class, as often as they occur. */
  lemma {:induction false} MembersAre(ns: seq<Need>, row: Need, n: Need)
    ensures multiset(Members(ns, ClassOf(row)))[n] == if Alike(n, row) then multiset(ns)[n] else 0
    decreases |ns|
  {
    if ns != [] {
      var before, last := ns[..|ns| - 1], ns[|ns| - 1];
      assert ns == before + [last];
      MembersAre(before, row, n);
    }
  }

  ghost predicate SumsUp(row: Need, ns: seq<Need>, ms: seq<Need>) {
    && ms != [] && row.aggregate == Total(ms) && LeastUnit(row.minUnit, ms) && EarliestKnown(row.arrival, ms)
    && forall n :: multiset(ms)[n] == if Alike(n, row) then multiset(ns)[n] else 0
  }

  /** The roll-up has one row for each combination of cluster, Profile and group that occurs; it
      asks for the sum of what its members ask for, in units that suit each of them, since the
      earliest of them. */
  lemma RollUpMeans(ns: seq<Need>, out: seq<Need>)
    requires IsRollUp(ns, out)
    ensures forall i, j | 0 <= i < j < |out| :: !Alike(out[i], out[j])
    ensures forall n | n in ns :: exists row :: row in out && Alike(row, n)
    ensures forall row | row in out :: exists ms :: SumsUp(row, ns, ms)
  {
    forall i, j | 0 <= i < j < |out|
      ensures !Alike(out[i], out[j])
    {
      assert ClassOf(out[i]) != ClassOf(out[j]);
    }
    forall n | n in ns
      ensures exists row :: row in out && Alike(row, n)
    {
      var row :| row in out && ClassOf(row) == ClassOf(n);
      assert Alike(row, n);
    }
    forall row | row in out
      ensures exists ms :: SumsUp(row, ns, ms)
    {
      var ms := Members(ns, ClassOf(row));
      RowMeans(ns, ClassOf(row));
      forall n
        ensures multiset(ms)[n] == if Alike(n, row) then multiset(ns)[n] else 0
      {
        MembersAre(ns, row, n);
      }
      assert SumsUp(row, ns, ms);
    }
  }

  // ---- The table ----------------------------------------------------------

  /** What the snapshot sorts by: priority, then age, then cluster. */
  datatype Rank = Rank(priority: int, arrival: int, cluster: string)

  function RankOf(n: Need): Rank {
    Rank(n.profile.priority, n.arrival, n.cluster)
  }

  predicate Ahead(a: Rank, b: Rank) {
    if a.priority != b.priority then a.priority > b.priority
    else if a.arrival != b.arrival then a.arrival < b.arrival
    else LexLess(a.cluster, b.cluster)
  }

  lemma AheadOrder(a: Rank, b: Rank, c: Rank)
    ensures !Ahead(a, a)
    ensures Ahead(a, b) && Ahead(b, c) ==> Ahead(a, c)
    ensures Ahead(a, b) || a == b || Ahead(b, a)
  {
    LexIrreflexive(a.cluster);
    LexTotal(a.cluster, b.cluster);
    if LexLess(a.cluster, b.cluster) && LexLess(b.cluster, c.cluster) {
      LexTransitive(a.cluster, b.cluster, c.cluster);
    }
  }

  function InsertNeed(n: Need, s: seq<Need>): seq<Need> {
    if s == [] || !Ahead(RankOf(s[0]), RankOf(n)) then [n] + s else [s[0]] + InsertNeed(n, s[1..])
  }

  /** The stable sort. */
  function SortNeeds(s: seq<Need>): seq<Need> {
    if s == [] then [] else InsertNeed(s[0], SortNeeds(s[1..]))
  }

  function Joint(byCluster: map<string, seq<Need>>, order: seq<string>): seq<Need> {
    if order == [] then []
    else (if order[0] in byCluster then byCluster[order[0]] else []) + Joint(byCluster, order[1..])
  }

  predicate Listing(byCluster: map<string, seq<Need>>, order: seq<string>) {
    Distinct(order) && (forall c | c in order :: c in byCluster) && (forall c | c in byCluster :: c in order)
  }

  /** Every cluster's slice holds that cluster's Needs. */
  predicate Filed(byCluster: map<string, seq<Need>>) {
    forall c | c in byCluster :: forall n | n in byCluster[c] :: n.cluster == c
  }

  class Table {
    var byCluster: map<string, seq<Need>>
    var cached: Option<seq<Need>>
    var dirty: bool
    ghost var order: seq<string>

    constructor ()
      ensures Valid() && byCluster == map[]
    {
      byCluster, cached, dirty, order := map[], None, false, [];
    }

    /** A clean cache is the sorted table, for some order of its clusters. */
    ghost predicate Valid()
      reads this
    {
      !dirty && cached.Some? ==> Listing(byCluster, order) && cached.value == SortNeeds(Joint(byCluster, order))
    }

    method Replace(cluster: string, ns: seq<Need>)
      requires Valid()
      modifies this
      ensures Valid()
      ensures byCluster == if ns == [] then old(byCluster) - {cluster} else old(byCluster)[cluster := ns]
      ensures dirty
    {
      byCluster := if ns == [] then byCluster - {cluster} else byCluster[cluster := ns];
      dirty := true;
    }

    /** The whole demand, sorted; the map's own order decides only where to start. */
    method Snapshot() returns (out: seq<Need>)
      requires Valid()
      modifies this
      ensures Valid() && byCluster == old(byCluster)
      ensures exists clusters :: Listing(byCluster, clusters) && out == SortNeeds(Joint(byCluster, clusters))
    {
      if !dirty && cached.Some? {
        return cached.value;
      }
      var all: seq<Need> := [];
      order := [];
      var todo := byCluster.Keys;
      while todo != {}
        invariant byCluster == old(byCluster) && todo <= byCluster.Keys
        invariant Distinct(order) && (forall c :: c in order <==> c in byCluster && c !in todo)
        invariant all == Joint(byCluster, order)
        decreases todo
      {
        var c :| c in todo;
        todo := todo - {c};
        JointLast(byCluster, order, c);
        all := all + byCluster[c];
        order := order + [c];
      }
      out := SortNeeds(all);
      cached, dirty := Some(out), false;
    }
  }

  lemma JointLast(byCluster: map<string, seq<Need>>, order: seq<string>, c: string)
    requires c in byCluster
    ensures Joint(byCluster, order + [c]) == Joint(byCluster, order) + byCluster[c]
  {
    if order == [] {
      assert [c][1..] == [];
    } else {
      assert (order + [c])[1..] == order[1..] + [c];
      JointLast(byCluster, order[1..], c);
    }
  }

  // ---- The order is the demand's own --------------------------------------

  function OfRank(s: seq<Need>, r: Rank): seq<Need> {
    if s == [] then [] else (if RankOf(s[0]) == r then [s[0]] else []) + OfRank(s[1..], r)
  }

  predicate Sorted(s: seq<Need>) {
    forall i, j | 0 <= i < j < |s| :: !Ahead(RankOf(s[j]), RankOf(s[i]))
  }

  lemma RankHead(h: Need, t: seq<Need>, r: Rank)
    ensures OfRank([h] + t, r) == (if RankOf(h) == r then [h] else []) + OfRank(t, r)
  {
    assert ([h] + t)[1..] == t;
  }

  lemma RankConcat(a: seq<Need>, b: seq<Need>, r: Rank)
    ensures OfRank(a + b, r) == OfRank(a, r) + OfRank(b, r)
  {
    if a == [] {
      assert a + b == b;
    } else {
      assert (a + b)[1..] == a[1..] + b;
      RankConcat(a[1..], b, r);
    }
  }

  lemma InsertNeedIn(n: Need, s: seq<Need>, x: Need)
    ensures x in InsertNeed(n, s) <==> x == n || x in s
  {
    if s != [] && Ahead(RankOf(s[0]), RankOf(n)) {
      InsertNeedIn(n, s[1..], x);
    }
  }

  lemma SortedCons(h: Need, t: seq<Need>)
    requires Sorted(t) && forall x | x in t :: !Ahead(RankOf(x), RankOf(h))
    ensures Sorted([h] + t)
  {
  }

  lemma InsertSorted(n: Need, s: seq<Need>)
    requires Sorted(s)
    ensures Sorted(InsertNeed(n, s))
  {
    if s != [] && Ahead(RankOf(s[0]), RankOf(n)) {
      InsertSorted(n, s[1..]);
      forall x | x in InsertNeed(n, s[1..])
        ensures !Ahead(RankOf(x), RankOf(s[0]))
      {
        InsertNeedIn(n, s[1..], x);
        AheadOrder(RankOf(s[0]), RankOf(n), RankOf(s[0]));
      }
      SortedCons(s[0], InsertNeed(n, s[1..]));
    } else {
      forall x | x in s
        ensures !Ahead(RankOf(x), RankOf(n))
      {
        AheadOrder(RankOf(x), RankOf(n), RankOf(s[0]));
        AheadOrder(RankOf(n), RankOf(s[0]), RankOf(x));
        AheadOrder(RankOf(s[0]), RankOf(x), RankOf(n));
      }
      SortedCons(n, s);
    }
  }

  lemma {:induction false} InsertStable(n: Need, s: seq<Need>, r: Rank)
    ensures OfRank(InsertNeed(n, s), r) == OfRank([n] + s, r)
    decreases |s|
  {
    if s != [] && Ahead(RankOf(s[0]), RankOf(n)) {
      var h, t := s[0], s[1..];
      assert s == [h] + t;
      InsertStable(n, t, r);
      RankHead(h, InsertNeed(n, t), r);
      RankHead(n, t, r);
      RankHead(n, s, r);
      RankHead(h, t, r);
      AheadOrder(RankOf(h), RankOf(n), RankOf(h));
    }
  }

  lemma {:induction false} SortStable(s: seq<Need>, r: Rank)
    ensures Sorted(SortNeeds(s)) && OfRank(SortNeeds(s), r) == OfRank(s, r)
    decreases |s|
  {
    if s != [] {
      SortStable(s[1..], r);
      InsertSorted(s[0], SortNeeds(s[1..]));
      InsertStable(s[0], SortNeeds(s[1..]), r);
      RankHead(s[0], SortNeeds(s[1..]), r);
    }
  }

  lemma OfRankIn(s: seq<Need>, r: Rank, n: Need)
    ensures n in OfRank(s, r) <==> n in s && RankOf(n) == r
  {
    if s != [] {
      OfRankIn(s[1..], r, n);
    }
  }

  lemma HeadFirst(a: seq<Need>, b: seq<Need>)
    requires Sorted(b) && a != [] && b != [] && OfRank(a, RankOf(a[0])) == OfRank(b, RankOf(a[0]))
    ensures !Ahead(RankOf(a[0]), RankOf(b[0]))
  {
    OfRankIn(a, RankOf(a[0]), a[0]);
    OfRankIn(b, RankOf(a[0]), a[0]);
    var j :| 0 <= j < |b| && b[j] == a[0];
    if j == 0 {
      AheadOrder(RankOf(a[0]), RankOf(a[0]), RankOf(a[0]));
    }
  }

  /** Two sorted sequences that agree within each rank start alike. */
  lemma HeadSame(a: seq<Need>, b: seq<Need>)
    requires Sorted(a) && Sorted(b) && a != [] && b != [] && forall r :: OfRank(a, r) == OfRank(b, r)
    ensures a[0] == b[0]
  {
    HeadFirst(a, b);
    HeadFirst(b, a);
    AheadOrder(RankOf(a[0]), RankOf(b[0]), RankOf(a[0]));
    var r := RankOf(a[0]);
    assert OfRank(a, r)[0] == a[0] && OfRank(b, r)[0] == b[0];
  }

  lemma TailSame(h: Need, s: seq<Need>, t: seq<Need>, r: Rank)
    requires OfRank([h] + s, r) == OfRank([h] + t, r)
    ensures OfRank(s, r) == OfRank(t, r)
  {
    RankHead(h, s, r);
    RankHead(h, t, r);
    var first := if RankOf(h) == r then [h] else [];
    assert OfRank(s, r) == (first + OfRank(s, r))[|first|..];
    assert OfRank(t, r) == (first + OfRank(t, r))[|first|..];
  }

  /** A sorted sequence is settled by the order within each rank. */
  lemma {:induction false} SortedSame(a: seq<Need>, b: seq<Need>)
    requires Sorted(a) && Sorted(b) && forall r :: OfRank(a, r) == OfRank(b, r)
    ensures a == b
    decreases |a|
  {
    if a == [] {
      NothingLeft(a, b);
    } else if b == [] {
      NothingLeft(b, a);
    } else {
      HeadSame(a, b);
      var h, s, t := a[0], a[1..], b[1..];
      assert a == [h] + s && b == [h] + t;
      forall r
        ensures OfRank(s, r) == OfRank(t, r)
      {
        assert OfRank(a, r) == OfRank(b, r);
        TailSame(h, s, t, r);
      }
      SortedSame(s, t);
    }
  }

  lemma NothingLeft(a: seq<Need>, b: seq<Need>)
    requires a == [] && forall r :: OfRank(a, r) == OfRank(b, r)
    ensures b == []
  {
    SomeElement(b);
    forall n | n in b
      ensures false
    {
      OfRankIn(b, RankOf(n), n);
    }
  }

  lemma {:induction false} JointRank(byCluster: map<string, seq<Need>>, order: seq<string>, r: Rank)
    requires Filed(byCluster) && Distinct(order) && forall c | c in order :: c in byCluster
    ensures OfRank(Joint(byCluster, order), r) == if r.cluster in order then OfRank(byCluster[r.cluster], r) else []
    decreases |order|
  {
    if order != [] {
      var c, rest := order[0], order[1..];
      assert c in order && c !in rest;
      assert forall x | x in rest :: x in order;
      JointRank(byCluster, rest, r);
      RankConcat(byCluster[c], Joint(byCluster, rest), r);
      if r.cluster != c {
        var own := OfRank(byCluster[c], r);
        SomeElement(own);
        forall n | n in own
          ensures false
        {
          OfRankIn(byCluster[c], r, n);
        }
      }
    }
  }

  /** The snapshot does not depend on the order in which the map yields its clusters. */
  lemma SnapshotUnique(byCluster: map<string, seq<Need>>, a: seq<string>, b: seq<string>)
    requires Filed(byCluster) && Listing(byCluster, a) && Listing(byCluster, b)
    ensures SortNeeds(Joint(byCluster, a)) == SortNeeds(Joint(byCluster, b))
  {
    var x, y := Joint(byCluster, a), Joint(byCluster, b);
    forall r
      ensures Sorted(SortNeeds(x)) && Sorted(SortNeeds(y)) && OfRank(SortNeeds(x), r) == OfRank(SortNeeds(y), r)
    {
      JointRank(byCluster, a, r);
      JointRank(byCluster, b, r);
      SortStable(x, r);
      SortStable(y, r);
    }
    var r := Rank(0, 0, "");
    SortStable(x, r);
    SortStable(y, r);
    SortedSame(SortNeeds(x), SortNeeds(y));
  }

  /** The snapshot's order: by priority, the highest first; of equal priority the earliest
      arrival first; then by cluster. */
  lemma SnapshotOrder(s: seq<Need>, i: nat, j: nat)
    requires i < j < |SortNeeds(s)|
    ensures var a, b := SortNeeds(s)[i], SortNeeds(s)[j];
            && a.profile.priority >= b.profile.priority
            && (a.profile.priority == b.profile.priority ==> a.arrival <= b.arrival)
            && (a.profile.priority == b.profile.priority && a.arrival == b.arrival ==>
                  a.cluster == b.cluster || LexLess(a.cluster, b.cluster))
  {
    SortStable(s, Rank(0, 0, ""));
    LexTotal(SortNeeds(s)[i].cluster, SortNeeds(s)[j].cluster);
  }
}
