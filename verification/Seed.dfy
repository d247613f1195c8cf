/** The pre-pass: the cycle's only attribution of existing supply. Needs are taken in
    priority order and each claims what is already bound to it, until covered. */
module Seed {
  import opened Resources
  import opened Fleet
  import opened Views
  import opened Ledger
  import opened Cycle
  import opened SameSupply
  import opened SameChoice
  import opened Sequences

  datatype Input = Input(ms: seq<Machine>, needs: seq<Need>, retries: nat)

  datatype SeedState = SeedState(claims: Claims, domain: map<nat, string>, satisfiable: map<nat, bool>,
                                 consumed: set<MachineId>)

  /** What counts toward a Need before anything is acquired, in the order it is
      credited: the cluster's Configured, then Configuring machines, each in
      keep-priority order, then the Need's own in-flight Creating ones. */
  function Supply(ms: seq<Machine>, n: Need): seq<Machine> {
    ClusterBucket(ms, n.cluster, Configured) + ClusterBucket(ms, n.cluster, Configuring)
    + Select(InFlightFor(n, SameKey(n.profile).Some?), ms)
  }

  function RecordFor(p: Input, i: nat): Claim
    requires i < |p.needs|
  {
    Claim(i, PrecedenceOf(p.needs[i].profile), p.retries)
  }

  /** The greedy walk: claim each unclaimed machine that fits, stop once covered. */
  function Walk(supply: seq<Machine>, n: Need, record: Claim, c: Claims, rem: ResVec): (Claims, ResVec) {
    if supply == [] || IsZero(rem) then (c, rem)
    else
      var m := supply[0];
      if m.id in c || !Fits(n, m) then Walk(supply[1..], n, record, c, rem)
      else Walk(supply[1..], n, record, c[m.id := record], Sub(rem, Alloc(m)))
  }

  function Values(ms: seq<Machine>, n: Need, key: string): set<string> {
    set m | m in Supply(ms, n) + Acquirable(ms, n.profile) && Lookup(key, m).Some? :: Lookup(key, m).value
  }

  function Members(p: Input, n: Need, key: string, st: SeedState, v: string): seq<Machine> {
    Select(Available(n, key, v, st.claims.Keys), Supply(p.ms, n))
  }

  /** A parked Need acquires nothing, so it weighs no acquirable supply. */
  function Extra(p: Input, n: Need, key: string, st: SeedState, v: string): seq<Machine> {
    if n.parked then [] else Select(Available(n, key, v, st.claims.Keys + st.consumed), Acquirable(p.ms, n.profile))
  }

  function StatOf(p: Input, n: Need, key: string, st: SeedState, v: string): Stat {
    var cred, extra := Members(p, n, key, st, v), Extra(p, n, key, st, v);
    Stat(|cred| + |extra|, Add(SumAlloc(cred), SumAlloc(extra)), SumAlloc(cred),
         SumAlloc(Select(Incumbent(n, true), cred)))
  }

  function Stats(p: Input, n: Need, key: string, st: SeedState): map<string, Stat> {
    map v | v in Values(p.ms, n, key) :: StatOf(p, n, key, st, v)
  }

  /** The gang's own machines first; each part keeps its order. */
  function IncumbentFirst(n: Need, members: seq<Machine>): seq<Machine> {
    Select(Incumbent(n, true), members) + Select(Incumbent(n, false), members)
  }

  /** The acquirable machines spoken for after a gang's turn: its residual will be filled
      from its domain. A parked Need acquires nothing. */
  function UsedUp(ms: seq<Machine>, n: Need, key: string, v: string, rem: ResVec, consumed: set<MachineId>)
    : set<MachineId>
  {
    if n.parked || IsZero(rem) then consumed
    else Consume(Select(Available(n, key, v, consumed), Acquirable(ms, n.profile)), rem, consumed)
  }

  ghost function SeedSame(p: Input, i: nat, key: string, st: SeedState): (SeedState, ResVec)
    requires i < |p.needs|
  {
    var n := p.needs[i];
    match Choice(Stats(p, n, key, st), n.aggregate)
    case None => (st, n.aggregate)
    case Some(v) =>
      var (c, rem) := Walk(IncumbentFirst(n, Members(p, n, key, st, v)), n, RecordFor(p, i), st.claims, n.aggregate);
      (SeedState(c, st.domain[i := v],
                 st.satisfiable[i := Covers(StatOf(p, n, key, st, v).total, n.aggregate)],
                 UsedUp(p.ms, n, key, v, rem, st.consumed)), rem)
  }

  lemma SeedSameNone(p: Input, i: nat, key: string, st: SeedState)
    requires i < |p.needs| && Choice(Stats(p, p.needs[i], key, st), p.needs[i].aggregate) == None
    ensures SeedSame(p, i, key, st) == (st, p.needs[i].aggregate)
  {
  }

  /** What a gang's turn amounts to once its domain is chosen. */
  lemma SeedSameSome(p: Input, i: nat, n: Need, key: string, st: SeedState, v: string, c: Claims, rem: ResVec,
                     satisfiable: bool, used: set<MachineId>)
    requires i < |p.needs| && n == p.needs[i] && Choice(Stats(p, n, key, st), n.aggregate) == Some(v)
    requires (c, rem) == Walk(IncumbentFirst(n, Members(p, n, key, st, v)), n, RecordFor(p, i), st.claims, n.aggregate)
    requires satisfiable == Covers(StatOf(p, n, key, st, v).total, n.aggregate)
    requires used == UsedUp(p.ms, n, key, v, rem, st.consumed)
    ensures SeedSame(p, i, key, st) == (SeedState(c, st.domain[i := v], st.satisfiable[i := satisfiable], used), rem)
  {
  }

  ghost function SeedOne(p: Input, i: nat, st: SeedState): (SeedState, ResVec)
    requires i < |p.needs|
  {
    var n := p.needs[i];
    match SameKey(n.profile)
    case Some(key) => SeedSame(p, i, key, st)
    case None =>
      var (c, rem) := Walk(Supply(p.ms, n), n, RecordFor(p, i), st.claims, n.aggregate);
      (st.(claims := c), rem)
  }

  ghost function SeedFold(p: Input, order: seq<nat>, st: SeedState, res: map<nat, ResVec>)
    : (SeedState, map<nat, ResVec>)
    requires InRange(p, order)
  {
    if order == [] then (st, res)
    else
      var (st', rem) := SeedOne(p, order[0], st);
      SeedFold(p, order[1..], st', res[order[0] := rem])
  }

  predicate InRange(p: Input, order: seq<nat>) {
    forall k | 0 <= k < |order| :: order[k] < |p.needs|
  }

  const EMPTY_SEED := SeedState(map[], map[], map[], {})

  /** Priority descending; the order of equals is the demand's. */
  predicate PriorityOrder(p: Input, order: seq<nat>) {
    && Distinct(order) && InRange(p, order)
    && (forall i | 0 <= i < |p.needs| :: i in order)
    && forall a, b | 0 <= a < b < |order| ::
         p.needs[order[a]].profile.priority > p.needs[order[b]].profile.priority ||
         (p.needs[order[a]].profile.priority == p.needs[order[b]].profile.priority && order[a] < order[b])
  }

  // ---- What one walk does -------------------------------------------------

  predicate Grows(c: Claims, d: Claims, record: Claim) {
    && (forall id | id in c :: id in d && d[id] == c[id])
    && (forall id | id in d && id !in c :: d[id] == record)
  }

  lemma WalkGrows(supply: seq<Machine>, n: Need, record: Claim, c: Claims, rem: ResVec)
    ensures Grows(c, Walk(supply, n, record, c, rem).0, record)
    ensures forall id | id in Walk(supply, n, record, c, rem).0 && id !in c ::
              exists m :: m in supply && m.id == id && Fits(n, m)
  {
    if supply != [] && !IsZero(rem) {
      var m := supply[0];
      var c' := if m.id in c || !Fits(n, m) then c else c[m.id := record];
      WalkGrows(supply[1..], n, record, c', if m.id in c || !Fits(n, m) then rem else Sub(rem, Alloc(m)));
      forall id | id in Walk(supply, n, record, c, rem).0 && id !in c
        ensures exists m :: m in supply && m.id == id && Fits(n, m)
      {
        if id in c' {
          assert m in supply;
        } else {
          var x :| x in supply[1..] && x.id == id && Fits(n, x);
          assert x in supply;
        }
      }
    }
  }

  /** A walk that ends short has claimed everything that fits. */
  lemma {:induction false} WalkExhausts(supply: seq<Machine>, n: Need, record: Claim, c: Claims, rem: ResVec,
                                        m: Machine)
    requires m in supply && Fits(n, m)
    requires !IsZero(Walk(supply, n, record, c, rem).1)
    ensures m.id in Walk(supply, n, record, c, rem).0
  {
    if !IsZero(rem) {
      var h := supply[0];
      var c' := if h.id in c || !Fits(n, h) then c else c[h.id := record];
      var rem' := if h.id in c || !Fits(n, h) then rem else Sub(rem, Alloc(h));
      WalkGrows(supply[1..], n, record, c', rem');
      if m != h {
        WalkExhausts(supply[1..], n, record, c', rem', m);
      }
    }
  }

  lemma HeldAdd(ms: seq<Machine>, ids: set<MachineId>, m: Machine)
    requires Unique(ms) && m in ms && m.id !in ids
    ensures HeldAlloc(ms, ids + {m.id}) == Add(HeldAlloc(ms, ids), Alloc(m))
  {
    var h, t := ms[0], ms[1..];
    if h == m {
      assert forall x | x in t :: x.id != m.id;
      HeldElse(t, ids, m.id);
      AddComm(HeldAlloc(t, ids), Alloc(m));
    } else {
      assert m in t && h.id != m.id;
      HeldAdd(t, ids, m);
      if h.id in ids {
        AddAssoc(Alloc(h), HeldAlloc(t, ids), Alloc(m));
      }
    }
  }

  lemma HeldElse(ms: seq<Machine>, ids: set<MachineId>, id: MachineId)
    requires forall x | x in ms :: x.id != id
    ensures HeldAlloc(ms, ids + {id}) == HeldAlloc(ms, ids)
  {
    if ms != [] {
      assert ms[0] in ms;
      HeldElse(ms[1..], ids, id);
    }
  }

  lemma HeldNothing(ms: seq<Machine>)
    ensures HeldAlloc(ms, {}) == map[]
  {
    if ms != [] {
      HeldNothing(ms[1..]);
    }
  }

  lemma HeldClaim(c: Claims, id: MachineId, record: Claim)
    requires id !in c
    ensures HeldBy(c[id := record], record.need) == HeldBy(c, record.need) + {id}
  {
  }

  /** The walk's residual is the deficit of what its Need then holds. */
  lemma WalkResidual(ms: seq<Machine>, supply: seq<Machine>, n: Need, record: Claim, c: Claims, rem: ResVec)
    requires Unique(ms) && forall m | m in supply :: m in ms
    requires rem == Sub(n.aggregate, HeldAlloc(ms, HeldBy(c, record.need)))
    ensures Walk(supply, n, record, c, rem).1 ==
            Sub(n.aggregate, HeldAlloc(ms, HeldBy(Walk(supply, n, record, c, rem).0, record.need)))
  {
    if supply != [] && !IsZero(rem) {
      var m := supply[0];
      assert m in supply;
      if m.id in c || !Fits(n, m) {
        WalkResidual(ms, supply[1..], n, record, c, rem);
      } else {
        var held := HeldBy(c, record.need);
        HeldAdd(ms, held, m);
        SubSub(n.aggregate, HeldAlloc(ms, held), Alloc(m));
        HeldClaim(c, m.id, record);
        WalkResidual(ms, supply[1..], n, record, c[m.id := record], Sub(rem, Alloc(m)));
      }
    }
  }

  lemma WalkSkip(m: Machine, t: seq<Machine>, n: Need, record: Claim, c: Claims, rem: ResVec)
    requires m.id in c || !Fits(n, m)
    ensures Walk([m] + t, n, record, c, rem) == Walk(t, n, record, c, rem)
  {
    assert ([m] + t)[1..] == t;
  }

  lemma WalkTake(m: Machine, t: seq<Machine>, n: Need, record: Claim, c: Claims, rem: ResVec)
    requires !IsZero(rem) && m.id !in c && Fits(n, m)
    ensures Walk([m] + t, n, record, c, rem) == Walk(t, n, record, c[m.id := record], Sub(rem, Alloc(m)))
  {
    assert ([m] + t)[1..] == t;
  }

  lemma WalkConcat(a: seq<Machine>, b: seq<Machine>, n: Need, record: Claim, c: Claims, rem: ResVec)
    ensures var (c', rem') := Walk(a, n, record, c, rem);
            Walk(a + b, n, record, c, rem) == Walk(b, n, record, c', rem')
  {
    if a == [] {
      assert a + b == b;
    } else if !IsZero(rem) {
      var m, t := a[0], a[1..];
      assert a == [m] + t && a + b == [m] + (t + b);
      if m.id in c || !Fits(n, m) {
        WalkSkip(m, t, n, record, c, rem);
        WalkSkip(m, t + b, n, record, c, rem);
        WalkConcat(t, b, n, record, c, rem);
      } else {
        WalkTake(m, t, n, record, c, rem);
        WalkTake(m, t + b, n, record, c, rem);
        WalkConcat(t, b, n, record, c[m.id := record], Sub(rem, Alloc(m)));
      }
    }
  }

  /** A machine the walk takes is among its claims. */
  lemma TakenKept(m: Machine, t: seq<Machine>, n: Need, record: Claim, c: Claims, rem: ResVec, gone: set<MachineId>)
    requires !IsZero(rem) && m.id !in c && Fits(n, m)
    requires Walk([m] + t, n, record, c, rem).0.Keys !! gone
    ensures m.id !in gone && Walk(t, n, record, c[m.id := record], Sub(rem, Alloc(m))).0.Keys !! gone
  {
    WalkTake(m, t, n, record, c, rem);
    WalkGrows(t, n, record, c[m.id := record], Sub(rem, Alloc(m)));
  }

  lemma WalkHead(m: Machine, t: seq<Machine>, n: Need, record: Claim, c: Claims, rem: ResVec)
    requires !IsZero(rem)
    ensures Walk([m] + t, n, record, c, rem) ==
            if m.id !in c && Fits(n, m) then Walk(t, n, record, c[m.id := record], Sub(rem, Alloc(m)))
            else Walk(t, n, record, c, rem)
  {
    if m.id !in c && Fits(n, m) {
      WalkTake(m, t, n, record, c, rem);
    } else {
      WalkSkip(m, t, n, record, c, rem);
    }
  }

  lemma WalkDone(supply: seq<Machine>, n: Need, record: Claim, c: Claims, rem: ResVec)
    requires supply == [] || IsZero(rem)
    ensures Walk(supply, n, record, c, rem) == (c, rem)
  {
  }

  /** Machines the walk leaves unclaimed could as well not have been there. */
  lemma {:induction false} WalkWithout(supply: seq<Machine>, n: Need, record: Claim, c: Claims, rem: ResVec,
                                       gone: set<MachineId>)
    requires Walk(supply, n, record, c, rem).0.Keys !! gone
    ensures Walk(Select(Without(gone), supply), n, record, c, rem) == Walk(supply, n, record, c, rem)
    decreases |supply|, 1
  {
    if supply == [] || IsZero(rem) {
      WalkDone(supply, n, record, c, rem);
      WalkDone(Select(Without(gone), supply), n, record, c, rem);
    } else {
      var m, t := supply[0], supply[1..];
      assert supply == [m] + t;
      if m.id in c || !Fits(n, m) {
        SkippedWithout(m, t, n, record, c, rem, gone);
      } else {
        TakenWithout(m, t, n, record, c, rem, gone);
      }
    }
  }

  lemma TakenWithout(m: Machine, t: seq<Machine>, n: Need, record: Claim, c: Claims, rem: ResVec, gone: set<MachineId>)
    requires !IsZero(rem) && m.id !in c && Fits(n, m)
    requires Walk([m] + t, n, record, c, rem).0.Keys !! gone
    ensures Walk(Select(Without(gone), [m] + t), n, record, c, rem) == Walk([m] + t, n, record, c, rem)
    decreases |t| + 1, 0
  {
    var kept := Select(Without(gone), t);
    TakenKept(m, t, n, record, c, rem, gone);
    WalkWithout(t, n, record, c[m.id := record], Sub(rem, Alloc(m)), gone);
    KeptHead(m, t, gone);
    WalkTake(m, kept, n, record, c, rem);
    WalkTake(m, t, n, record, c, rem);
  }

  lemma SkippedWithout(m: Machine, t: seq<Machine>, n: Need, record: Claim, c: Claims, rem: ResVec,
                       gone: set<MachineId>)
    requires m.id in c || !Fits(n, m)
    requires Walk([m] + t, n, record, c, rem).0.Keys !! gone
    ensures Walk(Select(Without(gone), [m] + t), n, record, c, rem) == Walk([m] + t, n, record, c, rem)
    decreases |t| + 1, 0
  {
    WalkSkip(m, t, n, record, c, rem);
    WalkWithout(t, n, record, c, rem, gone);
    KeptHead(m, t, gone);
    if m.id !in gone {
      WalkSkip(m, Select(Without(gone), t), n, record, c, rem);
    }
  }

  lemma KeptHead(m: Machine, t: seq<Machine>, gone: set<MachineId>)
    ensures Select(Without(gone), [m] + t) ==
            if m.id in gone then Select(Without(gone), t) else [m] + Select(Without(gone), t)
  {
    SelectHead(Without(gone), m, t);
  }

  /** What may be credited to a Need: the machines bound to its cluster, and those being
      created for its Profile, for a gang only its own group's. */
  lemma SupplyIn(ms: seq<Machine>, n: Need, m: Machine)
    ensures m in Supply(ms, n) <==>
            m in ms &&
            ((n.cluster != "" && m.cluster == n.cluster && (m.state == Configured || m.state == Configuring)) ||
             (m.state == Creating && m.assignedProfile == Some(n.profile) &&
              (SameKey(n.profile).Some? ==> m.assignedGroup == n.group)))
  {
    ClusterBucketIn(ms, n.cluster, Configured, m);
    ClusterBucketIn(ms, n.cluster, Configuring, m);
    SelectIn(InFlightFor(n, SameKey(n.profile).Some?), ms, m);
  }

  lemma MembersIn(p: Input, n: Need, key: string, st: SeedState, v: string, m: Machine)
    ensures m in IncumbentFirst(n, Members(p, n, key, st, v)) <==>
            m in Supply(p.ms, n) && m.id !in st.claims && Fits(n, m) && Lookup(key, m) == Some(v)
  {
    var ms := Members(p, n, key, st, v);
    SelectIn(Available(n, key, v, st.claims.Keys), Supply(p.ms, n), m);
    SelectIn(Incumbent(n, true), ms, m);
    SelectIn(Incumbent(n, false), ms, m);
  }
}
