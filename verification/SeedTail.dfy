/** What a cluster gives back is the tail of its keep-priority order: a Need holds on to
    the machines that are better to keep. */
module SeedTail {
  import opened Resources
  import opened Sequences
  import opened Fleet
  import opened Views
  import opened Inventory
  import opened Ledger
  import opened Seed
  import opened SeedSafety
  import opened SeedStability

  /** The walk takes no machine before an earlier one that fits. */
  lemma WalkPrefers(first: seq<Machine>, later: seq<Machine>, n: Need, record: Claim, c: Claims, rem: ResVec,
                    b: Machine, a: Machine)
    requires Unique(first + later) && b in first && Fits(n, b) && a in later
    requires a.id !in c && a.id in Walk(first + later, n, record, c, rem).0
    ensures b.id in Walk(first + later, n, record, c, rem).0
  {
    var (mid, left) := Walk(first, n, record, c, rem);
    WalkConcat(first, later, n, record, c, rem);
    if IsZero(left) {
      WalkDone(later, n, record, mid, left);
      WalkGrows(first, n, record, c, rem);
      var m :| m in first && m.id == a.id;
      NotInBoth(first, later, m, a);
    } else {
      WalkExhausts(first, n, record, c, rem, b);
      StillClaimed(later, n, record, mid, left, b.id);
    }
  }

  lemma EarlierTaken(supply: seq<Machine>, i: nat, j: nat, n: Need, record: Claim, c: Claims, rem: ResVec)
    requires Unique(supply) && i < j < |supply| && Fits(n, supply[i])
    requires supply[j].id !in c && supply[j].id in Walk(supply, n, record, c, rem).0
    ensures supply[i].id in Walk(supply, n, record, c, rem).0
  {
    var first, later := supply[..j], supply[j..];
    assert supply == first + later && first[i] == supply[i] && later[0] == supply[j];
    WalkPrefers(first, later, n, record, c, rem, supply[i], supply[j]);
  }

  lemma NotInBoth(first: seq<Machine>, later: seq<Machine>, x: Machine, y: Machine)
    requires Unique(first + later) && x in first && y in later
    ensures x.id != y.id
  {
    var i :| 0 <= i < |first| && first[i] == x;
    var j :| 0 <= j < |later| && later[j] == y;
    assert (first + later)[i] == x && (first + later)[|first| + j] == y;
  }

  lemma StillClaimed(supply: seq<Machine>, n: Need, record: Claim, c: Claims, rem: ResVec, id: MachineId)
    requires id in c
    ensures id in Walk(supply, n, record, c, rem).0
  {
    WalkGrows(supply, n, record, c, rem);
  }

  /** Bound machines come before machines being bound, those before machines being created. */
  function Stage(m: Machine): nat {
    match m.state
    case Configured => 0
    case Configuring => 1
    case _ => 2
  }

  predicate Ahead(a: Machine, b: Machine) {
    Stage(a) < Stage(b) || (Stage(a) == Stage(b) && (Stage(a) < 2 ==> WorthKeeping(a, b)))
  }

  /** Of its supply the Need holds what comes first: any machine it holds is ahead of any that
      fits it and is left unclaimed. */
  predicate KeepsBest(p: Input, c: Claims, i: nat)
    requires i < |p.needs|
  {
    var n := p.needs[i];
    forall a, b | a in Supply(p.ms, n) && b in Supply(p.ms, n) && Fits(n, b) &&
                  a.id in c && c[a.id].need == i && b.id !in c :: Ahead(a, b)
  }

  lemma BucketOrder(ms: seq<Machine>, cl: string, st: State, i: nat, j: nat)
    requires Unique(ms) && i < j < |ClusterBucket(ms, cl, st)|
    ensures WorthKeeping(ClusterBucket(ms, cl, st)[i], ClusterBucket(ms, cl, st)[j])
  {
    var bucket := ClusterBucket(ms, cl, st);
    SortSorted(KeepPriority, Select(Bound(cl, st), ms));
    SelectUnique(Bound(cl, st), ms);
    SortUnique(KeepPriority, Select(Bound(cl, st), ms));
    assert bucket[i].id != bucket[j].id && !Before(KeepPriority, bucket[j], bucket[i]);
    NoTies(KeepPriority, bucket[i], bucket[j]);
  }

  /** The part of the supply a position lies in. */
  lemma SupplyStage(ms: seq<Machine>, n: Need, i: nat)
    requires i < |Supply(ms, n)|
    ensures var a, b := ClusterBucket(ms, n.cluster, Configured), ClusterBucket(ms, n.cluster, Configuring);
            && (i < |a| ==> Supply(ms, n)[i] == a[i])
            && (|a| <= i < |a| + |b| ==> Supply(ms, n)[i] == b[i - |a|])
            && Stage(Supply(ms, n)[i]) == (if i < |a| then 0 else if i < |a| + |b| then 1 else 2)
  {
    var a, b := ClusterBucket(ms, n.cluster, Configured), ClusterBucket(ms, n.cluster, Configuring);
    var c := Select(InFlightFor(n, SameKey(n.profile).Some?), ms);
    var m := Supply(ms, n)[i];
    assert Supply(ms, n) == a + b + c;
    if i < |a| {
      assert m in a;
      ClusterBucketIn(ms, n.cluster, Configured, m);
    } else if i < |a| + |b| {
      assert m in b;
      ClusterBucketIn(ms, n.cluster, Configuring, m);
    } else {
      assert m in c;
      SelectIn(InFlightFor(n, SameKey(n.profile).Some?), ms, m);
    }
  }

  lemma SupplyOrder(ms: seq<Machine>, n: Need, i: nat, j: nat)
    requires Unique(ms) && i < j < |Supply(ms, n)|
    ensures Ahead(Supply(ms, n)[i], Supply(ms, n)[j])
  {
    var a, b := ClusterBucket(ms, n.cluster, Configured), ClusterBucket(ms, n.cluster, Configuring);
    SupplyStage(ms, n, i);
    SupplyStage(ms, n, j);
    if j < |a| {
      BucketOrder(ms, n.cluster, Configured, i, j);
    } else if |a| <= i && j < |a| + |b| {
      BucketOrder(ms, n.cluster, Configuring, i - |a|, j - |a|);
    }
  }

  lemma WalkOrder(supply: seq<Machine>, n: Need, record: Claim, c: Claims, rem: ResVec, j: nat, k: nat)
    requires Unique(supply) && j < |supply| && k < |supply| && Fits(n, supply[k])
    requires supply[j].id !in c && supply[j].id in Walk(supply, n, record, c, rem).0
    requires supply[k].id !in Walk(supply, n, record, c, rem).0
    ensures j < k
  {
    if k < j {
      EarlierTaken(supply, k, j, n, record, c, rem);
    }
  }

  lemma SupplyPrefers(ms: seq<Machine>, n: Need, record: Claim, c: Claims, rem: ResVec, a: Machine, b: Machine)
    requires Unique(ms) && a in Supply(ms, n) && b in Supply(ms, n) && Fits(n, b)
    requires a.id !in c && a.id in Walk(Supply(ms, n), n, record, c, rem).0
    requires b.id !in Walk(Supply(ms, n), n, record, c, rem).0
    ensures Ahead(a, b)
  {
    SupplyUnique(ms, n);
    var j :| 0 <= j < |Supply(ms, n)| && Supply(ms, n)[j] == a;
    var k :| 0 <= k < |Supply(ms, n)| && Supply(ms, n)[k] == b;
    WalkOrder(Supply(ms, n), n, record, c, rem, j, k);
    SupplyOrder(ms, n, j, k);
  }

  lemma PlainPrefers(p: Input, i: nat, st: SeedState, a: Machine, b: Machine)
    requires Unique(p.ms) && i < |p.needs| && SameKey(p.needs[i].profile).None?
    requires a in Supply(p.ms, p.needs[i]) && b in Supply(p.ms, p.needs[i]) && Fits(p.needs[i], b)
    requires var c := SeedOne(p, i, st).0.claims; a.id in c && a.id !in st.claims && b.id !in c
    ensures Ahead(a, b)
  {
    SupplyPrefers(p.ms, p.needs[i], RecordFor(p, i), st.claims, p.needs[i].aggregate, a, b);
  }

  ghost predicate TailInv(p: Input, done: set<nat>, st: SeedState) {
    forall i | i in done :: i < |p.needs| && (SameKey(p.needs[i].profile).None? ==> KeepsBest(p, st.claims, i))
  }

  lemma TurnKeepsTail(p: Input, done: set<nat>, i: nat, st: SeedState, res: map<nat, ResVec>)
    requires SeedInv(p, done, st, res) && TailInv(p, done, st) && i < |p.needs| && i !in done
    ensures TailInv(p, done + {i}, SeedOne(p, i, st).0)
  {
    var st' := SeedOne(p, i, st).0;
    AnyTurn(p, i, st);
    NoneYet(p, done, i, st);
    forall j | j in done + {i} && SameKey(p.needs[j].profile).None?
      ensures KeepsBest(p, st'.claims, j)
    {
      var n := p.needs[j];
      forall a, b | a in Supply(p.ms, n) && b in Supply(p.ms, n) && Fits(n, b) &&
                    a.id in st'.claims && st'.claims[a.id].need == j && b.id !in st'.claims
        ensures Ahead(a, b)
      {
        if j == i {
          assert a.id !in HeldBy(st.claims, i);
          PlainPrefers(p, i, st, a, b);
        } else {
          assert KeepsBest(p, st.claims, j);
        }
      }
    }
  }

  lemma {:induction false} FoldKeepsTail(p: Input, order: seq<nat>, done: set<nat>, st: SeedState,
                                         res: map<nat, ResVec>)
    requires SeedInv(p, done, st, res) && TailInv(p, done, st) && InRange(p, order)
    requires Distinct(order) && forall i | i in order :: i !in done
    ensures TailInv(p, done + (set i | i in order), SeedFold(p, order, st, res).0)
    decreases |order|
  {
    if order == [] {
      assert done + (set i | i in order) == done;
    } else {
      var i, rest := order[0], order[1..];
      RestDistinct(order, done);
      TurnKeepsTail(p, done, i, st, res);
      StepKeeps(p, done, i, st, res);
      FoldStep(p, order, st, res);
      FoldKeepsTail(p, rest, done + {i}, SeedOne(p, i, st).0, res[i := SeedOne(p, i, st).1]);
    }
  }

  /** After the pre-pass, what a Need without a Same constraint holds of its supply is ahead of
      whatever fits it and was left unclaimed. */
  lemma SeedKeepsBest(p: Input, order: seq<nat>, i: nat)
    requires Unique(p.ms) && PriorityOrder(p, order) && i < |p.needs| && SameKey(p.needs[i].profile).None?
    ensures KeepsBest(p, Seeded(p, order).0.claims, i)
  {
    FoldKeepsTail(p, order, {}, EMPTY_SEED, map[]);
    assert i in order;
  }

  // ---- Who comes first ----------------------------------------------------

  /** Every machine that could serve the Need is held, by a Need of no lower priority. */
  predicate HeldAbove(p: Input, c: Claims, i: nat)
    requires i < |p.needs|
  {
    forall m | m in Supply(p.ms, p.needs[i]) && Fits(p.needs[i], m) ::
      m.id in c && c[m.id].need < |p.needs| &&
      p.needs[c[m.id].need].profile.priority >= p.needs[i].profile.priority
  }

  ghost predicate PrioritiesKept(p: Input, done: set<nat>, st: SeedState, res: map<nat, ResVec>) {
    forall i | i in done ::
      i < |p.needs| && (i in res && SameKey(p.needs[i].profile).None? && !IsZero(res[i]) ==> HeldAbove(p, st.claims, i))
  }

  /** Those served before had no lower priority. */
  predicate ServedFirst(p: Input, done: set<nat>, i: nat)
    requires i < |p.needs|
  {
    forall d | d in done && d < |p.needs| :: p.needs[d].profile.priority >= p.needs[i].profile.priority
  }

  lemma TurnKeepsPriorities(p: Input, done: set<nat>, i: nat, st: SeedState, res: map<nat, ResVec>)
    requires SeedInv(p, done, st, res) && PrioritiesKept(p, done, st, res) && i < |p.needs| && i !in done
    requires ServedFirst(p, done, i)
    ensures PrioritiesKept(p, done + {i}, SeedOne(p, i, st).0, res[i := SeedOne(p, i, st).1])
  {
    var (st', rem) := SeedOne(p, i, st);
    AnyTurn(p, i, st);
    StepKeeps(p, done, i, st, res);
    forall j | j in done + {i} && SameKey(p.needs[j].profile).None? && !IsZero(res[i := rem][j])
      ensures HeldAbove(p, st'.claims, j)
    {
      if j == i {
        assert ShortOK(p, st'.claims, i, rem);
        NewHolders(p, done, i, st');
      } else {
        assert HeldAbove(p, st.claims, j);
      }
    }
  }

  lemma NewHolders(p: Input, done: set<nat>, i: nat, st: SeedState)
    requires i < |p.needs| && ServedFirst(p, done, i) && ClaimsCredited(p, st, done + {i})
    requires Exhausted(p, st.claims, p.needs[i])
    ensures HeldAbove(p, st.claims, i)
  {
  }

  lemma {:induction false} FoldKeepsPriorities(p: Input, order: seq<nat>, done: set<nat>, st: SeedState,
                                               res: map<nat, ResVec>)
    requires SeedInv(p, done, st, res) && PrioritiesKept(p, done, st, res) && InRange(p, order) && Distinct(order)
    requires forall i | i in order :: i !in done
    requires forall k | 0 <= k < |order| :: ServedFirst(p, done, order[k])
    requires forall a, b | 0 <= a < b < |order| ::
               p.needs[order[a]].profile.priority >= p.needs[order[b]].profile.priority
    ensures PrioritiesKept(p, done + (set i | i in order), SeedFold(p, order, st, res).0, SeedFold(p, order, st, res).1)
    decreases |order|
  {
    if order == [] {
      assert done + (set i | i in order) == done;
    } else {
      var i, rest := order[0], order[1..];
      RestDistinct(order, done);
      TurnKeepsPriorities(p, done, i, st, res);
      StepKeeps(p, done, i, st, res);
      FoldStep(p, order, st, res);
      assert forall k | 0 <= k < |rest| :: rest[k] == order[k + 1];
      FoldKeepsPriorities(p, rest, done + {i}, SeedOne(p, i, st).0, res[i := SeedOne(p, i, st).1]);
    }
  }

  /** Priority rules the pre-pass: where it leaves a Need without a Same constraint short,
      every machine that could have served it is held by a Need of no lower priority. */
  lemma {:induction false} SeedByPriority(p: Input, order: seq<nat>, i: nat)
    requires Unique(p.ms) && PriorityOrder(p, order) && i < |p.needs| && SameKey(p.needs[i].profile).None?
    ensures i in Seeded(p, order).1
    ensures !IsZero(Seeded(p, order).1[i]) ==> HeldAbove(p, Seeded(p, order).0.claims, i)
  {
    SeededInv(p, order);
    FoldKeepsPriorities(p, order, {}, EMPTY_SEED, map[]);
    assert i in order;
  }

  /** Among the cluster's Configured machines what a Need holds is worth more to keep. */
  lemma BoundKeepsBest(p: Input, c: Claims, i: nat, a: Machine, b: Machine)
    requires i < |p.needs| && KeepsBest(p, c, i)
    requires a in p.ms && b in p.ms && a.state == Configured && b.state == Configured
    requires a.cluster == p.needs[i].cluster && b.cluster == p.needs[i].cluster != "" && Fits(p.needs[i], b)
    requires a.id in c && c[a.id].need == i && b.id !in c
    ensures WorthKeeping(a, b)
  {
    SupplyIn(p.ms, p.needs[i], a);
    SupplyIn(p.ms, p.needs[i], b);
  }
}
