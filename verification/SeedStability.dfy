/** What the pre-pass is for: a served gang keeps its own machines, and giving back
    what nobody claimed does not change who is credited next time. */
module SeedStability {
  import opened Resources
  import opened Fleet
  import opened Views
  import opened Ledger
  import opened SameSupply
  import opened SameChoice
  import opened Seed
  import opened Sequences

  // ---- A served gang is a fixed point -------------------------------------

  /** The machines of one domain that carry the gang's own attribution and could be
      credited to it at its turn. */
  function Own(p: Input, n: Need, key: string, st: SeedState, v: string): seq<Machine> {
    Select(Incumbent(n, true), Members(p, n, key, st, v))
  }

  lemma SelectSum(q: Query, ms: seq<Machine>, d: string)
    ensures Qty(SumAlloc(Select(q, ms)), d) <= Qty(SumAlloc(ms), d)
  {
    if ms != [] {
      SelectSum(q, ms[1..], d);
    }
  }

  lemma CoversRest(rem: ResVec, first: ResVec, rest: ResVec)
    requires Covers(Add(first, rest), rem)
    ensures Covers(rest, Sub(rem, first))
  {
    var r := Sub(rem, first);
    forall d | d in r
      ensures r[d] <= Qty(rest, d)
    {
      assert d in rem ==> rem[d] <= Qty(first, d) + Qty(rest, d);
    }
  }

  predicate Free(s: seq<Machine>, n: Need, c: Claims) {
    Unique(s) && forall m | m in s :: m.id !in c && Fits(n, m)
  }

  lemma UniqueTail(m: Machine, t: seq<Machine>)
    requires Unique([m] + t)
    ensures Unique(t) && forall x | x in t :: x.id != m.id
  {
    var s := [m] + t;
    assert s[0] == m && s[1..] == t;
  }

  lemma FreeTail(m: Machine, t: seq<Machine>, n: Need, c: Claims, record: Claim)
    requires Free([m] + t, n, c)
    ensures m.id !in c && Fits(n, m) && Free(t, n, c[m.id := record])
  {
    UniqueTail(m, t);
    assert m in [m] + t;
    forall x | x in t
      ensures x.id !in c[m.id := record] && Fits(n, x)
    {
      assert x in [m] + t;
    }
  }

  /** Machines that fit, are free and together cover the demand leave nothing over. */
  lemma {:induction false} WalkCovers(s: seq<Machine>, n: Need, record: Claim, c: Claims, rem: ResVec)
    requires Free(s, n, c) && Covers(SumAlloc(s), rem)
    ensures IsZero(Walk(s, n, record, c, rem).1)
    decreases |s|
  {
    if s != [] && !IsZero(rem) {
      var m, t := s[0], s[1..];
      assert s == [m] + t;
      FreeTail(m, t, n, c, record);
      WalkTake(m, t, n, record, c, rem);
      CoversRest(rem, Alloc(m), SumAlloc(t));
      WalkCovers(t, n, record, c[m.id := record], Sub(rem, Alloc(m)));
    }
  }

  lemma SupplyUnique(ms: seq<Machine>, n: Need)
    requires Unique(ms)
    ensures Unique(Supply(ms, n))
  {
    var a, b := ClusterBucket(ms, n.cluster, Configured), ClusterBucket(ms, n.cluster, Configuring);
    var d := Select(InFlightFor(n, SameKey(n.profile).Some?), ms);
    SelectUnique(Bound(n.cluster, Configured), ms);
    SelectUnique(Bound(n.cluster, Configuring), ms);
    SortUnique(KeepPriority, Select(Bound(n.cluster, Configured), ms));
    SortUnique(KeepPriority, Select(Bound(n.cluster, Configuring), ms));
    SelectUnique(InFlightFor(n, SameKey(n.profile).Some?), ms);
    forall x | x in a ensures x in ms && x.state == Configured { ClusterBucketIn(ms, n.cluster, Configured, x); }
    forall x | x in b ensures x in ms && x.state == Configuring { ClusterBucketIn(ms, n.cluster, Configuring, x); }
    forall x | x in d
      ensures x in ms && x.state == Creating
    {
      SelectIn(InFlightFor(n, SameKey(n.profile).Some?), ms, x);
    }
    StatesApart(ms, a, b);
    StatesApart(ms, a + b, d);
  }

  lemma OwnIn(p: Input, n: Need, key: string, st: SeedState, v: string, m: Machine)
    ensures m in Own(p, n, key, st, v) <==>
            m in Supply(p.ms, n) && m.id !in st.claims && Fits(n, m) && Lookup(key, m) == Some(v) && OwnedBy(n, m)
  {
    SelectIn(Incumbent(n, true), Members(p, n, key, st, v), m);
    SelectIn(Available(n, key, v, st.claims.Keys), Supply(p.ms, n), m);
  }

  lemma OwnFree(p: Input, n: Need, key: string, st: SeedState, v: string)
    requires Unique(p.ms)
    ensures Free(Own(p, n, key, st, v), n, st.claims)
    ensures forall m | m in Own(p, n, key, st, v) ::
              m in Supply(p.ms, n) && OwnedBy(n, m) && Lookup(key, m) == Some(v)
  {
    SupplyUnique(p.ms, n);
    SelectUnique(Available(n, key, v, st.claims.Keys), Supply(p.ms, n));
    SelectUnique(Incumbent(n, true), Members(p, n, key, st, v));
    forall m | m in Own(p, n, key, st, v)
      ensures m in Supply(p.ms, n) && OwnedBy(n, m) && Lookup(key, m) == Some(v) && m.id !in st.claims && Fits(n, m)
    {
      OwnIn(p, n, key, st, v, m);
    }
  }

  lemma OwnCovers(p: Input, n: Need, key: string, st: SeedState, v: string)
    requires Own(p, n, key, st, v) != []
    requires Covers(SumAlloc(Own(p, n, key, st, v)), n.aggregate)
    ensures v in Values(p.ms, n, key)
    ensures var s := StatOf(p, n, key, st, v);
            s.count > 0 && Covers(s.own, n.aggregate) && Covers(s.cred, n.aggregate) && Covers(s.total, n.aggregate)
  {
    var members := Members(p, n, key, st, v);
    var s := StatOf(p, n, key, st, v);
    var m := Own(p, n, key, st, v)[0];
    OwnIn(p, n, key, st, v, m);
    assert m in Supply(p.ms, n) + Acquirable(p.ms, n.profile);
    forall d
      ensures Qty(s.own, d) <= Qty(s.cred, d) <= Qty(s.total, d)
    {
      SelectSum(Incumbent(n, true), members, d);
    }
    CoversMore(s.cred, s.own, n.aggregate);
    CoversMore(s.total, s.cred, n.aggregate);
  }

  lemma OwnChosen(p: Input, n: Need, key: string, st: SeedState, v: string)
    requires Own(p, n, key, st, v) != [] && Covers(SumAlloc(Own(p, n, key, st, v)), n.aggregate)
    requires forall u | u in Values(p.ms, n, key) && u != v :: !Covers(SumAlloc(Own(p, n, key, st, u)), n.aggregate)
    ensures Choice(Stats(p, n, key, st), n.aggregate) == Some(v)
  {
    OwnCovers(p, n, key, st, v);
    OwnDomainChosen(Stats(p, n, key, st), n.aggregate, v);
  }

  /** A served gang is a fixed point. If at its turn the gang's own machines in one
      domain cover its demand and those of no other domain do, the pre-pass chooses
      that domain, claims nothing but the gang's own machines in it, leaves no residual
      and uses up no acquirable supply, whatever any domain holds besides. */
  lemma ServedGang(p: Input, i: nat, key: string, st: SeedState, v: string)
    requires Unique(p.ms) && i < |p.needs|
    requires Own(p, p.needs[i], key, st, v) != []
    requires Covers(SumAlloc(Own(p, p.needs[i], key, st, v)), p.needs[i].aggregate)
    requires forall u | u in Values(p.ms, p.needs[i], key) && u != v ::
               !Covers(SumAlloc(Own(p, p.needs[i], key, st, u)), p.needs[i].aggregate)
    ensures var (st', rem) := SeedSame(p, i, key, st);
            && IsZero(rem)
            && st'.domain == st.domain[i := v] && st'.satisfiable == st.satisfiable[i := true]
            && st'.consumed == st.consumed
            && Grows(st.claims, st'.claims, RecordFor(p, i))
            && forall id | id in st'.claims && id !in st.claims ::
                 exists m :: m in Supply(p.ms, p.needs[i]) && m.id == id && OwnedBy(p.needs[i], m)
                             && Lookup(key, m) == Some(v)
  {
    var n := p.needs[i];
    var own, rest := Own(p, n, key, st, v), Select(Incumbent(n, false), Members(p, n, key, st, v));
    OwnChosen(p, n, key, st, v);
    OwnCovers(p, n, key, st, v);
    OwnFree(p, n, key, st, v);
    WalkCovers(own, n, RecordFor(p, i), st.claims, n.aggregate);
    WalkConcat(own, rest, n, RecordFor(p, i), st.claims, n.aggregate);
    WalkGrows(own, n, RecordFor(p, i), st.claims, n.aggregate);
  }

  // ---- Giving back the unclaimed changes nothing --------------------------

  /** The second snapshot's creditable machines are the first's without `gone`. */
  predicate GaveBack(ms: seq<Machine>, ms2: seq<Machine>, gone: set<MachineId>) {
    Select(Creditable, ms2) == Select(Without(gone), Select(Creditable, ms))
  }

  lemma QueryWithout(q: Query, ms: seq<Machine>, ms2: seq<Machine>, gone: set<MachineId>)
    requires GaveBack(ms, ms2, gone)
    requires forall m :: Holds(q, m) ==> Holds(Creditable, m)
    ensures Select(q, ms2) == Select(Without(gone), Select(q, ms))
  {
    SelectThrough(q, Creditable, ms2);
    SelectThrough(q, Creditable, ms);
    SelectSwap(q, Without(gone), Select(Creditable, ms));
  }

  lemma SupplyWithout(ms: seq<Machine>, ms2: seq<Machine>, n: Need, gone: set<MachineId>)
    requires GaveBack(ms, ms2, gone)
    ensures Supply(ms2, n) == Select(Without(gone), Supply(ms, n))
  {
    var w := Without(gone);
    var qa, qb := Bound(n.cluster, Configured), Bound(n.cluster, Configuring);
    var qc := InFlightFor(n, SameKey(n.profile).Some?);
    QueryWithout(qa, ms, ms2, gone);
    QueryWithout(qb, ms, ms2, gone);
    QueryWithout(qc, ms, ms2, gone);
    SelectSort(w, KeepPriority, Select(qa, ms));
    SelectSort(w, KeepPriority, Select(qb, ms));
    var a, b, c := ClusterBucket(ms, n.cluster, Configured), ClusterBucket(ms, n.cluster, Configuring), Select(qc, ms);
    SelectConcat(w, a + b, c);
    SelectConcat(w, a, b);
  }

  predicate AllWithoutSame(p: Input) {
    forall n | n in p.needs :: SameKey(n.profile).None?
  }

  lemma {:induction false} FoldGrows(p: Input, order: seq<nat>, st: SeedState, res: map<nat, ResVec>)
    requires InRange(p, order) && AllWithoutSame(p)
    ensures st.claims.Keys <= SeedFold(p, order, st, res).0.claims.Keys
    decreases |order|
  {
    if order != [] {
      var i := order[0];
      var n := p.needs[i];
      assert n in p.needs;
      WalkGrows(Supply(p.ms, n), n, RecordFor(p, i), st.claims, n.aggregate);
      var (st', rem) := SeedOne(p, i, st);
      FoldGrows(p, order[1..], st', res[i := rem]);
    }
  }

  lemma OneWithout(p: Input, ms2: seq<Machine>, i: nat, st: SeedState, gone: set<MachineId>)
    requires i < |p.needs| && SameKey(p.needs[i].profile).None? && GaveBack(p.ms, ms2, gone)
    requires SeedOne(p, i, st).0.claims.Keys !! gone
    ensures SeedOne(p.(ms := ms2), i, st) == SeedOne(p, i, st)
  {
    var n := p.needs[i];
    SupplyWithout(p.ms, ms2, n, gone);
    WalkWithout(Supply(p.ms, n), n, RecordFor(p, i), st.claims, n.aggregate, gone);
  }

  /** Without gangs in the demand, taking any set of unclaimed machines out of the
      fleet leaves every claim and every residual of the pre-pass as it was. */
  lemma {:induction false} FoldWithout(p: Input, ms2: seq<Machine>, order: seq<nat>, st: SeedState,
                                       res: map<nat, ResVec>, gone: set<MachineId>)
    requires InRange(p, order) && AllWithoutSame(p) && GaveBack(p.ms, ms2, gone)
    requires SeedFold(p, order, st, res).0.claims.Keys !! gone
    ensures SeedFold(p.(ms := ms2), order, st, res) == SeedFold(p, order, st, res)
    decreases |order|
  {
    if order != [] {
      var i := order[0];
      assert p.needs[i] in p.needs;
      var (st', rem) := SeedOne(p, i, st);
      FoldGrows(p, order[1..], st', res[i := rem]);
      OneWithout(p, ms2, i, st, gone);
      FoldWithout(p, ms2, order[1..], st', res[i := rem], gone);
    }
  }
}
