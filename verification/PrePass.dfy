/** The pre-pass as the engine runs it: loops over the snapshot's buckets, claims written
    to the shared state, integer vectors and a bucket table for gangs. Every method is
    proved equal to the attribution in module Seed. */
module PrePass {
  import opened Resources
  import opened Fleet
  import opened Views
  import opened Inventory
  import opened Ledger
  import opened Broker
  import opened SameBucket
  import opened SameSupply
  import opened SameChoice
  import opened Seed
  import opened DomainTable
  import opened Sequences

  lemma WalkFrom(supply: seq<Machine>, i: nat, n: Need, record: Claim, c: Claims, rem: ResVec)
    requires i < |supply| && !IsZero(rem)
    ensures Walk(supply[i..], n, record, c, rem) ==
            if supply[i].id !in c && Fits(n, supply[i])
            then Walk(supply[i + 1..], n, record, c[supply[i].id := record], Sub(rem, Alloc(supply[i])))
            else Walk(supply[i + 1..], n, record, c, rem)
  {
    assert supply[i..] == [supply[i]] + supply[i + 1..];
    WalkHead(supply[i], supply[i + 1..], n, record, c, rem);
  }

  /** Claims the unclaimed machines that fit, in order, until the demand is covered. */
  method CreditWalk(state: SharedState, supply: seq<Machine>, n: Need, record: Claim, demand: ResVec)
    returns (rem: ResVec)
    requires state.Valid()
    modifies state`claimedBy, state`claimedByNeed
    ensures state.Valid()
    ensures state.claimedBy == Walk(supply, n, record, old(state.claimedBy), demand).0
    ensures rem == Walk(supply, n, record, old(state.claimedBy), demand).1
  {
    rem := demand;
    var i := 0;
    ghost var goal := Walk(supply, n, record, state.claimedBy, demand);
    assert supply[0..] == supply;
    assert goal == Walk(supply[i..], n, record, state.claimedBy, rem);
    while i < |supply| && !IsZero(rem)
      invariant i <= |supply| && state.Valid()
      invariant goal == Walk(supply[i..], n, record, state.claimedBy, rem)
    {
      var m := supply[i];
      WalkFrom(supply, i, n, record, state.claimedBy, rem);
      if m.id !in state.claimedBy && Fits(n, m) {
        state.SeedClaim(m.id, record.need, record.precedence, record.retriesLeft);
        rem := Sub(rem, Alloc(m));
      }
      i := i + 1;
    }
    WalkDone(supply[i..], n, record, state.claimedBy, rem);
  }

  lemma OwnInFlight(n: Need, gang: bool, ms: seq<Machine>)
    ensures Select(InFlightFor(n, gang), Select(InState(Creating), ms)) == Select(InFlightFor(n, gang), ms)
  {
    SelectThrough(InFlightFor(n, gang), InState(Creating), ms);
  }

  /** The Need's own machines still being created. */
  method OwnCreating(snap: Snapshot, n: Need, gang: bool) returns (own: seq<Machine>)
    requires snap.Agrees()
    ensures own == Select(InFlightFor(n, gang), snap.machines)
  {
    var creating := snap.ListByState(Creating);
    own := [];
    for i := 0 to |creating|
      invariant own == Select(InFlightFor(n, gang), creating[..i])
    {
      var m := creating[i];
      assert creating[..i + 1] == creating[..i] + [m];
      SelectOne(InFlightFor(n, gang), creating[..i], m);
      SelectIn(InState(Creating), snap.machines, m);
      if m.assignedProfile == Some(n.profile) && (gang ==> m.assignedGroup == n.group) {
        own := own + [m];
      }
    }
    assert creating[..|creating|] == creating;
    OwnInFlight(n, gang, snap.machines);
  }

  /** A Need without a Same constraint: the cluster's Configured, then its Configuring
      machines, then its own in-flight ones. */
  method SeedPlain(state: SharedState, snap: Snapshot, n: Need, record: Claim) returns (rem: ResVec)
    requires state.Valid() && snap.Agrees() && SameKey(n.profile).None?
    modifies state`claimedBy, state`claimedByNeed
    ensures state.Valid()
    ensures state.claimedBy == Walk(Supply(snap.machines, n), n, record, old(state.claimedBy), n.aggregate).0
    ensures rem == Walk(Supply(snap.machines, n), n, record, old(state.claimedBy), n.aggregate).1
  {
    var configured := snap.SortedClusterStateBucket(n.cluster, Configured);
    var configuring := snap.SortedClusterStateBucket(n.cluster, Configuring);
    ghost var own := Select(InFlightFor(n, false), snap.machines);
    ghost var c := state.claimedBy;
    WalkConcat(configured + configuring, own, n, record, c, n.aggregate);
    WalkConcat(configured, configuring, n, record, c, n.aggregate);
    rem := CreditWalk(state, configured, n, record, n.aggregate);
    rem := CreditWalk(state, configuring, n, record, rem);
    if !IsZero(rem) {
      var creating := OwnCreating(snap, n, false);
      rem := CreditWalk(state, creating, n, record, rem);
    }
  }

  // ---- Gangs --------------------------------------------------------------

  /** The gang's own machines moved to the front, unless they already are there. */
  method OwnFirst(n: Need, ms: seq<Machine>) returns (out: seq<Machine>)
    ensures out == IncumbentFirst(n, ms)
  {
    var seenOther, mixed, i := false, false, 0;
    while i < |ms| && !mixed
      invariant i <= |ms|
      invariant !mixed ==> ms[..i] == IncumbentFirst(n, ms[..i])
      invariant !mixed && !seenOther ==> Select(Incumbent(n, false), ms[..i]) == []
    {
      var m := ms[i];
      assert ms[..i + 1] == ms[..i] + [m];
      SelectOne(Incumbent(n, true), ms[..i], m);
      SelectOne(Incumbent(n, false), ms[..i], m);
      if !OwnedBy(n, m) {
        seenOther := true;
      } else if seenOther {
        mixed := true;
      }
      i := i + 1;
    }
    if !mixed {
      assert ms[..|ms|] == ms;
      return ms;
    }
    var own := Part(n, ms, true);
    var rest := Part(n, ms, false);
    out := own + rest;
  }

  method Part(n: Need, ms: seq<Machine>, yes: bool) returns (out: seq<Machine>)
    ensures out == Select(Incumbent(n, yes), ms)
  {
    out := [];
    for i := 0 to |ms|
      invariant out == Select(Incumbent(n, yes), ms[..i])
    {
      assert ms[..i + 1] == ms[..i] + [ms[i]];
      SelectOne(Incumbent(n, yes), ms[..i], ms[i]);
      if OwnedBy(n, ms[i]) == yes {
        out := out + [ms[i]];
      }
    }
    assert ms[..|ms|] == ms;
  }

  /** Folds one machine into its domain's row, if it is free and fits. */
  method AddCreditable(index: SameSupplyIndex, claimed: set<MachineId>, n: Need, key: string, unit: seq<nat>,
                       m: Machine, t0: Table, ghost g: Progress)
    returns (t: Table)
    requires index.Valid() && TableOK(index.names, g, t0) && Denotes(index.names, unit, n.minUnit)
    requires g.n == n && g.key == key && g.claimed == claimed && g.extras == map[]
    requires Lookup(key, m).Some? ==> Lookup(key, m).value in g.vals
    modifies index`dims, index`names
    ensures index.Valid() && old(index.names) <= index.names && Denotes(index.names, unit, n.minUnit)
    ensures TableOK(index.names, g.(done := g.done + [m]), t)
  {
    t := t0;
    if m.id in claimed || !Matches(n.profile, m) {
      SkipKeeps(index.names, g, t, m);
      return;
    }
    var vec := index.ParseVec(Alloc(m));
    TableLater(old(index.names), index.names, g, t);
    DenotesLater(old(index.names), index.names, unit, n.minUnit);
    CoversRefines(index.names, vec, Alloc(m), unit, n.minUnit);
    if !VecCovers(vec, unit) || Lookup(key, m).None? {
      SkipKeeps(index.names, g, t, m);
      return;
    }
    var v := Lookup(key, m).value;
    TouchKeeps(index.names, g, t, v);
    t := Touch(t, v);
    CreditKeeps(index.names, g, t, m, vec);
    t := AddCredit(t, v, m, vec, OwnedBy(n, m));
  }

  method CreditAll(index: SameSupplyIndex, claimed: set<MachineId>, n: Need, key: string, unit: seq<nat>,
                   src: seq<Machine>, t0: Table, ghost g: Progress)
    returns (t: Table)
    requires index.Valid() && TableOK(index.names, g, t0) && Denotes(index.names, unit, n.minUnit)
    requires g.n == n && g.key == key && g.claimed == claimed && g.extras == map[]
    requires forall m | m in src && Lookup(key, m).Some? :: Lookup(key, m).value in g.vals
    modifies index`dims, index`names
    ensures index.Valid() && old(index.names) <= index.names && Denotes(index.names, unit, n.minUnit)
    ensures TableOK(index.names, g.(done := g.done + src), t)
  {
    t := t0;
    assert g.done + src[..0] == g.done;
    for i := 0 to |src|
      invariant index.Valid() && old(index.names) <= index.names && Denotes(index.names, unit, n.minUnit)
      invariant TableOK(index.names, g.(done := g.done + src[..i]), t)
    {
      assert g.done + src[..i + 1] == g.done + src[..i] + [src[i]];
      t := AddCreditable(index, claimed, n, key, unit, src[i], t, g.(done := g.done + src[..i]));
    }
    assert src[..|src|] == src;
  }

  /** The table over the whole creditable supply of a gang. */
  method CreditSupply(index: SameSupplyIndex, claimed: set<MachineId>, n: Need, key: string, ghost vals: set<string>)
    returns (t: Table)
    requires index.Valid() && SameKey(n.profile).Some?
    requires forall m | m in Supply(index.snap.machines, n) && Lookup(key, m).Some? :: Lookup(key, m).value in vals
    modifies index`dims, index`names
    ensures index.Valid() && old(index.names) <= index.names
    ensures TableOK(index.names, Progress(n, key, claimed, Supply(index.snap.machines, n), map[], vals), t)
  {
    var unit := index.ParseVec(n.minUnit);
    var a := index.snap.SortedClusterStateBucket(n.cluster, Configured);
    var b := index.snap.SortedClusterStateBucket(n.cluster, Configuring);
    var c := OwnCreating(index.snap, n, true);
    ghost var g := Progress(n, key, claimed, [], map[], vals);
    EmptyOK(index.names, g);
    SupplyParts(index.snap.machines, n, a, b, c);
    t := CreditAll(index, claimed, n, key, unit, a, EMPTY, g);
    t := CreditAll(index, claimed, n, key, unit, b, t, g.(done := [] + a));
    t := CreditAll(index, claimed, n, key, unit, c, t, g.(done := [] + a + b));
  }

  lemma SupplyParts(ms: seq<Machine>, n: Need, a: seq<Machine>, b: seq<Machine>, c: seq<Machine>)
    requires a == ClusterBucket(ms, n.cluster, Configured) && b == ClusterBucket(ms, n.cluster, Configuring)
    requires c == Select(InFlightFor(n, SameKey(n.profile).Some?), ms)
    ensures [] + a + b + c == Supply(ms, n)
    ensures forall m | m in a || m in b || m in c :: m in Supply(ms, n)
  {
    assert [] + a == a;
  }

  method FoldOne(b: Bucket, t0: Table, v: string, ghost g: Progress, ghost names: seq<string>,
                 ghost free: seq<Machine>)
    returns (t: Table)
    requires TableOK(names, g, t0) && v in g.vals && v !in g.extras
    requires b.count == |free| && Denotes(names, b.total, SumAlloc(free))
    ensures TableOK(names, g.(extras := g.extras[v := free]), t)
  {
    TouchKeeps(names, g, t0, v);
    TotalKeeps(names, g, g.(extras := g.extras[v := free]), Touch(t0, v), v, b, free);
    t := AddTotal(Touch(t0, v), v, b);
  }

  /** Merges the acquirable totals, domain by domain, in whatever order they come. */
  method FoldTotals(totals: map<string, Bucket>, t0: Table, ghost taken: set<MachineId>, ghost g: Progress,
                    ghost names: seq<string>, ghost acq: seq<Machine>)
    returns (t: Table, ghost folded: map<string, seq<Machine>>)
    requires TableOK(names, g, t0) && g.extras == map[]
    requires Totals(names, totals, g.n, g.key, taken, acq)
    requires forall v | v in totals :: v in g.vals
    ensures TableOK(names, g.(extras := folded), t)
    ensures forall v :: Select(Available(g.n, g.key, v, taken), acq) == if v in folded then folded[v] else []
  {
    t, folded := t0, map[];
    var todo := totals.Keys;
    assert g.(extras := folded) == g;
    while todo != {}
      invariant todo <= totals.Keys && folded.Keys == totals.Keys - todo
      invariant TableOK(names, g.(extras := folded), t)
      invariant forall v | v in folded :: folded[v] == Select(Available(g.n, g.key, v, taken), acq)
      decreases todo
    {
      var v :| v in todo;
      todo := todo - {v};
      ghost var free := Select(Available(g.n, g.key, v, taken), acq);
      TotalGives(names, totals, g.n, g.key, taken, acq, v);
      t := FoldOne(totals[v], t, v, g.(extras := folded), names, free);
      folded := folded[v := free];
    }
    forall v
      ensures Select(Available(g.n, g.key, v, taken), acq) == if v in folded then folded[v] else []
    {
      TotalGives(names, totals, g.n, g.key, taken, acq, v);
    }
  }

  lemma TotalGives(names: seq<string>, totals: map<string, Bucket>, n: Need, key: string, taken: set<MachineId>,
                acq: seq<Machine>, v: string)
    requires Totals(names, totals, n, key, taken, acq)
    ensures var free := Select(Available(n, key, v, taken), acq);
            if v in totals then totals[v].count == |free| && Denotes(names, totals[v].total, SumAlloc(free))
            else free == []
  {
    assert TotalOK(names, totals, n, key, taken, acq, v);
  }

  lemma AcquirableValue(n: Need, key: string, v: string, taken: set<MachineId>, ms: seq<Machine>, m: Machine)
    requires m in Select(Available(n, key, v, taken), Acquirable(ms, n.profile))
    ensures v in Values(ms, n, key)
  {
    SelectIn(Available(n, key, v, taken), Acquirable(ms, n.profile), m);
    assert m in Supply(ms, n) + Acquirable(ms, n.profile);
  }

  lemma TotalKnown(names: seq<string>, b: Bucket, n: Need, key: string, taken: set<MachineId>, ms: seq<Machine>,
                   v: string)
    requires TotalIs(names, Some(b), v, Select(Available(n, key, v, taken), Acquirable(ms, n.profile)))
    ensures v in Values(ms, n, key)
  {
    var free := Select(Available(n, key, v, taken), Acquirable(ms, n.profile));
    assert free[0] in free;
    AcquirableValue(n, key, v, taken, ms, free[0]);
  }

  lemma TotalsKnown(names: seq<string>, totals: map<string, Bucket>, n: Need, key: string, taken: set<MachineId>,
                    ms: seq<Machine>)
    requires Totals(names, totals, n, key, taken, Acquirable(ms, n.profile))
    ensures forall v | v in totals :: v in Values(ms, n, key)
  {
    forall v | v in totals
      ensures v in Values(ms, n, key)
    {
      assert TotalOK(names, totals, n, key, taken, Acquirable(ms, n.profile), v);
      TotalKnown(names, totals[v], n, key, taken, ms, v);
    }
  }

  /** The finished table of a gang: its creditable machines and, unless it is parked, the
      acquirable supply nobody claimed or is about to use up. */
  method BuildTable(index: SameSupplyIndex, n: Need, key: string, ghost p: Input, ghost st: SeedState,
                    claimed: set<MachineId>, consumed: set<MachineId>)
    returns (t: Table, ghost g: Progress)
    requires index.Valid() && SameKey(n.profile) == Some(key)
    requires p.ms == index.snap.machines && st.claims.Keys == claimed && st.consumed == consumed
    modifies index
    ensures index.Valid() && old(index.names) <= index.names
    ensures TableOK(index.names, g, t) && Finished(p, n, key, st, g)
  {
    ghost var vals := Values(p.ms, n, key);
    SupplyValues(p.ms, n, key);
    t := CreditSupply(index, claimed, n, key, vals);
    g := Progress(n, key, claimed, Supply(p.ms, n), map[], vals);
    if !n.parked {
      ghost var was := index.names;
      var totals := index.AcquirableTotals(n, key, claimed + consumed);
      TableLater(was, index.names, g, t);
      TotalsKnown(index.names, totals, n, key, claimed + consumed, p.ms);
      ghost var folded;
      t, folded := FoldTotals(totals, t, claimed + consumed, g, index.names, Acquirable(p.ms, n.profile));
      g := g.(extras := folded);
    }
  }

  lemma SupplyValues(ms: seq<Machine>, n: Need, key: string)
    ensures forall m | m in Supply(ms, n) && Lookup(key, m).Some? :: Lookup(key, m).value in Values(ms, n, key)
  {
    forall m | m in Supply(ms, n) && Lookup(key, m).Some?
      ensures Lookup(key, m).value in Values(ms, n, key)
    {
      assert m in Supply(ms, n) + Acquirable(ms, n.profile);
    }
  }

  /** The domain a gang is confined to this cycle: the best row of its finished table. */
  method ChooseDomain(index: SameSupplyIndex, n: Need, key: string, ghost p: Input, ghost st: SeedState,
                      claimed: set<MachineId>, consumed: set<MachineId>)
    returns (best: int, t: Table, satisfiable: bool)
    requires index.Valid() && SameKey(n.profile) == Some(key)
    requires p.ms == index.snap.machines && st.claims.Keys == claimed && st.consumed == consumed
    modifies index
    ensures index.Valid() && Shape(t) && -1 <= best < |t.buckets|
    ensures Choice(Stats(p, n, key, st), n.aggregate) == if best == -1 then None else Some(t.buckets[best].value)
    ensures best != -1 ==>
              && t.members[best] == Members(p, n, key, st, t.buckets[best].value)
              && satisfiable == Covers(StatOf(p, n, key, st, t.buckets[best].value).total, n.aggregate)
  {
    ghost var g;
    t, g := BuildTable(index, n, key, p, st, claimed, consumed);
    ghost var was := index.names;
    var deficit := index.ParseVec(n.aggregate);
    TableLater(was, index.names, g, t);
    TableLists(p, n, key, st, g, t, index.names);
    best := ChooseSameBucket(t.buckets, deficit);
    ChoiceRefined(index.names, t.buckets, Stats(p, n, key, st), deficit, n.aggregate, best);
    satisfiable := false;
    if best != -1 {
      satisfiable := VecCovers(t.buckets[best].total, deficit);
      assert t.buckets[best] in t.buckets;
      CoversRefines(index.names, t.buckets[best].total, StatOf(p, n, key, st, t.buckets[best].value).total, deficit,
                    n.aggregate);
    }
  }

  /** Records a gang's domain, credits it there, and marks what its residual will use up. */
  method ClaimDomain(state: SharedState, index: SameSupplyIndex, i: nat, n: Need, key: string, v: string,
                     members: seq<Machine>, satisfiable: bool, retries: nat, consumed: set<MachineId>)
    returns (rem: ResVec, used: set<MachineId>)
    requires state.Valid() && index.Valid() && SameKey(n.profile) == Some(key)
    requires Unique(index.snap.machines) && PinsDistinct(n.profile)
    modifies state`claimedBy, state`claimedByNeed, state`sameDomain, state`sameSatisfiable, index
    ensures state.Valid() && index.Valid()
    ensures state.sameDomain == old(state.sameDomain)[i := v]
    ensures state.sameSatisfiable == old(state.sameSatisfiable)[i := satisfiable]
    ensures (state.claimedBy, rem) == Walk(IncumbentFirst(n, members), n, Claim(i, PrecedenceOf(n.profile), retries),
                                           old(state.claimedBy), n.aggregate)
    ensures used == UsedUp(index.snap.machines, n, key, v, rem, consumed)
  {
    state.RecordSame(i, v, satisfiable);
    var ordered := OwnFirst(n, members);
    rem := CreditWalk(state, ordered, n, Claim(i, PrecedenceOf(n.profile), retries), n.aggregate);
    used := consumed;
    if !n.parked && !IsZero(rem) {
      used := index.ConsumeAcquirable(n, key, v, rem, consumed);
    }
  }

  /** A gang's turn: choose its domain, record it, credit its machines there, and mark
      the acquirable ones its residual is going to use up. */
  method SeedGang(state: SharedState, index: SameSupplyIndex, ghost p: Input, i: nat, n: Need, key: string,
                  retries: nat, consumed: set<MachineId>)
    returns (rem: ResVec, used: set<MachineId>)
    requires state.Valid() && index.Valid() && SameKey(n.profile) == Some(key)
    requires i < |p.needs| && p.needs[i] == n && p.ms == index.snap.machines && p.retries == retries
    requires Unique(p.ms) && PinsDistinct(n.profile)
    modifies state`claimedBy, state`claimedByNeed, state`sameDomain, state`sameSatisfiable, index
    ensures state.Valid() && index.Valid()
    ensures (SeedState(state.claimedBy, state.sameDomain, state.sameSatisfiable, used), rem) ==
            SeedSame(p, i, key, SeedState(old(state.claimedBy), old(state.sameDomain), old(state.sameSatisfiable),
                                          consumed))
  {
    ghost var st := SeedState(state.claimedBy, state.sameDomain, state.sameSatisfiable, consumed);
    var best, t, satisfiable := ChooseDomain(index, n, key, p, st, state.claimedBy.Keys, consumed);
    if best == -1 {
      SeedSameNone(p, i, key, st);
      rem, used := n.aggregate, consumed;
    } else {
      var v := t.buckets[best].value;
      rem, used := ClaimDomain(state, index, i, n, key, v, t.members[best], satisfiable, retries, consumed);
      SeedSameSome(p, i, n, key, st, v, state.claimedBy, rem, satisfiable, used);
    }
  }

  // ---- The whole pre-pass -------------------------------------------------

  function InsertIndex(needs: seq<Need>, i: nat, order: seq<nat>): seq<nat>
    requires i < |needs| && Bounded(needs, order)
  {
    if order == [] || needs[order[0]].profile.priority <= needs[i].profile.priority then [i] + order
    else [order[0]] + InsertIndex(needs, i, order[1..])
  }

  predicate Bounded(needs: seq<Need>, order: seq<nat>) {
    forall k | 0 <= k < |order| :: order[k] < |needs|
  }

  lemma InsertIndexIn(needs: seq<Need>, i: nat, order: seq<nat>)
    requires i < |needs| && Bounded(needs, order)
    ensures forall k :: k in InsertIndex(needs, i, order) <==> k == i || k in order
    ensures Bounded(needs, InsertIndex(needs, i, order))
  {
    if order != [] && needs[order[0]].profile.priority > needs[i].profile.priority {
      InsertIndexIn(needs, i, order[1..]);
      assert forall k :: k in order <==> k == order[0] || k in order[1..];
    }
  }

  /** The stable sort of the Needs by priority, highest first. */
  function OrderFrom(needs: seq<Need>, i: nat): (order: seq<nat>)
    requires i <= |needs|
    ensures Bounded(needs, order)
    decreases |needs| - i
  {
    if i == |needs| then []
    else
      var rest := OrderFrom(needs, i + 1);
      InsertIndexIn(needs, i, rest);
      InsertIndex(needs, i, rest)
  }

  predicate Precedes(needs: seq<Need>, i: nat, j: nat) {
    i < |needs| && j < |needs| &&
    (needs[i].profile.priority > needs[j].profile.priority ||
     (needs[i].profile.priority == needs[j].profile.priority && i < j))
  }

  predicate Ordered(needs: seq<Need>, order: seq<nat>) {
    forall a, b | 0 <= a < b < |order| :: Precedes(needs, order[a], order[b])
  }

  lemma OrderedCons(needs: seq<Need>, h: nat, t: seq<nat>)
    requires Ordered(needs, t) && forall k | k in t :: Precedes(needs, h, k)
    ensures Ordered(needs, [h] + t)
  {
    var s := [h] + t;
    forall a, b | 0 <= a < b < |s|
      ensures Precedes(needs, s[a], s[b])
    {
      assert s[b] == t[b - 1] && t[b - 1] in t;
      assert a > 0 ==> s[a] == t[a - 1];
    }
  }

  lemma OrderedHead(needs: seq<Need>, order: seq<nat>, k: nat)
    requires Ordered(needs, order) && order != [] && k in order[1..]
    ensures Precedes(needs, order[0], k)
  {
    var b :| 0 <= b < |order| - 1 && order[1..][b] == k;
    assert Precedes(needs, order[0], order[b + 1]);
  }

  lemma InsertIndexOrdered(needs: seq<Need>, i: nat, order: seq<nat>)
    requires i < |needs| && Bounded(needs, order) && forall k | k in order :: i < k
    requires Ordered(needs, order)
    ensures Ordered(needs, InsertIndex(needs, i, order))
  {
    if order == [] {
    } else if needs[order[0]].profile.priority > needs[i].profile.priority {
      assert forall k | k in order[1..] :: k in order;
      InsertIndexOrdered(needs, i, order[1..]);
      InsertIndexIn(needs, i, order[1..]);
      forall k | k in InsertIndex(needs, i, order[1..])
        ensures Precedes(needs, order[0], k)
      {
        if k in order[1..] {
          OrderedHead(needs, order, k);
        }
      }
      OrderedCons(needs, order[0], InsertIndex(needs, i, order[1..]));
    } else {
      forall k | k in order
        ensures Precedes(needs, i, k)
      {
        var b :| 0 <= b < |order| && order[b] == k;
        assert order[0] in order;
        if b > 0 {
          OrderedHead(needs, order, k);
        }
      }
      OrderedCons(needs, i, order);
    }
  }

  lemma OrderOrdered(needs: seq<Need>, i: nat)
    requires i <= |needs|
    ensures Ordered(needs, OrderFrom(needs, i))
    ensures forall k :: k in OrderFrom(needs, i) <==> i <= k < |needs|
    decreases |needs| - i
  {
    if i < |needs| {
      OrderOrdered(needs, i + 1);
      InsertIndexOrdered(needs, i, OrderFrom(needs, i + 1));
      InsertIndexIn(needs, i, OrderFrom(needs, i + 1));
    }
  }

  /** The order the pre-pass walks in is the one the theorems assume. */
  lemma OrderIsPriorityOrder(p: Input)
    ensures PriorityOrder(p, OrderFrom(p.needs, 0))
  {
    var order := OrderFrom(p.needs, 0);
    OrderOrdered(p.needs, 0);
    forall a, b | 0 <= a < b < |order|
      ensures order[a] != order[b]
    {
      assert Precedes(p.needs, order[a], order[b]);
    }
  }

  /** The pre-pass over the whole demand. */
  method SeedConfiguredSupply(state: SharedState, index: SameSupplyIndex, needs: seq<Need>, retries: nat)
    returns (residual: map<nat, ResVec>, used: set<MachineId>)
    requires state.Valid() && index.Valid() && Unique(index.snap.machines)
    requires state.claimedBy == map[] && state.sameDomain == map[] && state.sameSatisfiable == map[]
    requires forall n | n in needs :: PinsDistinct(n.profile)
    modifies state`claimedBy, state`claimedByNeed, state`sameDomain, state`sameSatisfiable, index
    ensures state.Valid()
    ensures var p := Input(index.snap.machines, needs, retries);
            PriorityOrder(p, OrderFrom(needs, 0)) &&
            (SeedState(state.claimedBy, state.sameDomain, state.sameSatisfiable, used), residual) ==
            SeedFold(p, OrderFrom(needs, 0), EMPTY_SEED, map[])
  {
    ghost var p := Input(index.snap.machines, needs, retries);
    OrderIsPriorityOrder(p);
    var order := OrderFrom(needs, 0);
    residual, used := map[], {};
    ghost var goal := SeedFold(p, order, EMPTY_SEED, map[]);
    assert order[0..] == order;
    for k := 0 to |order|
      invariant state.Valid() && index.Valid()
      invariant InRange(p, order[k..])
      invariant goal == SeedFold(p, order[k..], SeedState(state.claimedBy, state.sameDomain, state.sameSatisfiable,
                                                          used),
                                 residual)
    {
      var i := order[k];
      assert order[k..][1..] == order[k + 1..];
      assert needs[i] in needs;
      var rem;
      rem, used := SeedNeed(state, index, p, i, needs[i], retries, used);
      residual := residual[i := rem];
    }
  }

  method SeedNeed(state: SharedState, index: SameSupplyIndex, ghost p: Input, i: nat, n: Need, retries: nat,
                  consumed: set<MachineId>)
    returns (rem: ResVec, used: set<MachineId>)
    requires state.Valid() && index.Valid()
    requires i < |p.needs| && p.needs[i] == n && p.ms == index.snap.machines && p.retries == retries
    requires Unique(p.ms) && PinsDistinct(n.profile)
    modifies state`claimedBy, state`claimedByNeed, state`sameDomain, state`sameSatisfiable, index
    ensures state.Valid() && index.Valid()
    ensures (SeedState(state.claimedBy, state.sameDomain, state.sameSatisfiable, used), rem) ==
            SeedOne(p, i, SeedState(old(state.claimedBy), old(state.sameDomain), old(state.sameSatisfiable), consumed))
  {
    match SameKey(n.profile)
    case Some(key) => rem, used := SeedGang(state, index, p, i, n, key, retries, consumed);
    case None =>
      rem := SeedPlain(state, index.snap, n, Claim(i, PrecedenceOf(n.profile), retries));
      used := consumed;
  }
}
