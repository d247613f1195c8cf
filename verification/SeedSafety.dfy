/** What the pre-pass leaves behind: claims on existing supply only, exact residuals,
    one domain per gang, and nothing that fits a short Need left unclaimed. */
module SeedSafety {
  import opened Resources
  import opened Fleet
  import opened Views
  import opened Ledger
  import opened Cycle
  import opened CycleSafety
  import opened SameChoice
  import opened Seed
  import opened Sequences

  /** The claim is the Need's own record, on a machine of its supply that fits it, and
      inside the domain recorded for it when it is a gang. */
  ghost predicate Credited(p: Input, st: SeedState, id: MachineId, m: Machine)
    requires id in st.claims && st.claims[id].need < |p.needs|
  {
    var i := st.claims[id].need;
    var key := SameKey(p.needs[i].profile);
    && m.id == id && st.claims[id] == Claim(i, PrecedenceOf(p.needs[i].profile), p.retries)
    && m in Supply(p.ms, p.needs[i]) && Fits(p.needs[i], m)
    && (key.Some? ==> i in st.domain && Lookup(key.value, m) == Some(st.domain[i]))
  }

  ghost predicate ClaimsCredited(p: Input, st: SeedState, done: set<nat>) {
    && (forall id | id in st.claims :: st.claims[id].need in done && st.claims[id].need < |p.needs|)
    && (forall id | id in st.claims :: exists m :: Credited(p, st, id, m))
  }

  /** Every machine of the Need's supply that fits it is claimed by someone. */
  predicate Exhausted(p: Input, c: Claims, n: Need) {
    forall m | m in Supply(p.ms, n) && Fits(n, m) :: m.id in c
  }

  predicate ShortOK(p: Input, c: Claims, i: nat, rem: ResVec)
    requires i < |p.needs|
  {
    && rem == Sub(p.needs[i].aggregate, HeldAlloc(p.ms, HeldBy(c, i)))
    && (SameKey(p.needs[i].profile).None? && !IsZero(rem) ==> Exhausted(p, c, p.needs[i]))
  }

  ghost predicate SeedInv(p: Input, done: set<nat>, st: SeedState, res: map<nat, ResVec>) {
    Unique(p.ms) && ClaimsCredited(p, st, done) && st.domain.Keys <= done && Residues(p, done, st.claims, res)
  }

  predicate Residues(p: Input, done: set<nat>, c: Claims, res: map<nat, ResVec>) {
    res.Keys == done && forall i | i in done :: i < |p.needs| && ShortOK(p, c, i, res[i])
  }

  /** What one Need's turn adds to the claims. */
  ghost predicate Turn(p: Input, i: nat, st: SeedState, st': SeedState, rem: ResVec)
    requires i < |p.needs|
  {
    var n := p.needs[i];
    && Grows(st.claims, st'.claims, RecordFor(p, i))
    && (forall id | id in st'.claims && id !in st.claims :: exists m :: Credited(p, st', id, m))
    && (forall j | j in st.domain && j != i :: j in st'.domain && st'.domain[j] == st.domain[j])
    && st'.domain.Keys <= st.domain.Keys + {i}
    && (HeldBy(st.claims, i) == {} ==> ShortOK(p, st'.claims, i, rem))
  }

  lemma WalkShort(p: Input, i: nat, supply: seq<Machine>, c: Claims)
    requires Unique(p.ms) && i < |p.needs|
    requires forall m | m in supply :: m in Supply(p.ms, p.needs[i])
    requires HeldBy(c, i) == {}
    ensures var n := p.needs[i];
            var r := Walk(supply, n, RecordFor(p, i), c, n.aggregate);
            r.1 == Sub(n.aggregate, HeldAlloc(p.ms, HeldBy(r.0, i)))
  {
    var n := p.needs[i];
    forall m | m in supply
      ensures m in p.ms
    {
      SupplyIn(p.ms, n, m);
    }
    HeldNothing(p.ms);
    SubNothing(n.aggregate);
    WalkResidual(p.ms, supply, n, RecordFor(p, i), c, n.aggregate);
  }

  lemma WalkCredits(p: Input, i: nat, supply: seq<Machine>, st: SeedState, st': SeedState, id: MachineId)
    requires i < |p.needs|
    requires st'.claims == Walk(supply, p.needs[i], RecordFor(p, i), st.claims, p.needs[i].aggregate).0
    requires forall m | m in supply :: m in Supply(p.ms, p.needs[i])
    requires var key := SameKey(p.needs[i].profile);
             key.Some? ==> i in st'.domain && forall m | m in supply :: Lookup(key.value, m) == Some(st'.domain[i])
    requires id in st'.claims && id !in st.claims
    ensures st'.claims[id].need < |p.needs| && exists m :: Credited(p, st', id, m)
  {
    WalkGrows(supply, p.needs[i], RecordFor(p, i), st.claims, p.needs[i].aggregate);
    var m :| m in supply && m.id == id && Fits(p.needs[i], m);
    assert Credited(p, st', id, m);
  }

  lemma PlainTurn(p: Input, i: nat, st: SeedState)
    requires Unique(p.ms) && i < |p.needs| && SameKey(p.needs[i].profile).None?
    ensures Turn(p, i, st, SeedOne(p, i, st).0, SeedOne(p, i, st).1)
  {
    var n := p.needs[i];
    var supply := Supply(p.ms, n);
    var (st', rem) := SeedOne(p, i, st);
    WalkGrows(supply, n, RecordFor(p, i), st.claims, n.aggregate);
    forall id | id in st'.claims && id !in st.claims
      ensures exists m :: Credited(p, st', id, m)
    {
      WalkCredits(p, i, supply, st, st', id);
    }
    if HeldBy(st.claims, i) == {} {
      WalkShort(p, i, supply, st.claims);
      forall m | m in supply && Fits(n, m) && !IsZero(rem)
        ensures m.id in st'.claims
      {
        WalkExhausts(supply, n, RecordFor(p, i), st.claims, n.aggregate, m);
      }
    }
  }

  lemma DomainTurn(p: Input, i: nat, key: string, v: string, supply: seq<Machine>, st: SeedState, st': SeedState)
    requires Unique(p.ms) && i < |p.needs| && SameKey(p.needs[i].profile) == Some(key)
    requires forall m | m in supply :: m in Supply(p.ms, p.needs[i]) && Lookup(key, m) == Some(v)
    requires st'.claims == Walk(supply, p.needs[i], RecordFor(p, i), st.claims, p.needs[i].aggregate).0
    requires st'.domain == st.domain[i := v]
    ensures Turn(p, i, st, st', Walk(supply, p.needs[i], RecordFor(p, i), st.claims, p.needs[i].aggregate).1)
  {
    var n := p.needs[i];
    WalkGrows(supply, n, RecordFor(p, i), st.claims, n.aggregate);
    forall id | id in st'.claims && id !in st.claims
      ensures exists m :: Credited(p, st', id, m)
    {
      WalkCredits(p, i, supply, st, st', id);
    }
    if HeldBy(st.claims, i) == {} {
      WalkShort(p, i, supply, st.claims);
    }
  }

  lemma SupplyOfDomain(p: Input, n: Need, key: string, st: SeedState, v: string)
    ensures forall m | m in IncumbentFirst(n, Members(p, n, key, st, v)) ::
              m in Supply(p.ms, n) && Lookup(key, m) == Some(v)
  {
    forall m | m in IncumbentFirst(n, Members(p, n, key, st, v))
      ensures m in Supply(p.ms, n) && Lookup(key, m) == Some(v)
    {
      MembersIn(p, n, key, st, v, m);
    }
  }

  lemma NoTurn(p: Input, i: nat, st: SeedState)
    requires i < |p.needs| && SameKey(p.needs[i].profile).Some?
    ensures Turn(p, i, st, st, p.needs[i].aggregate)
  {
    HeldNothing(p.ms);
    SubNothing(p.needs[i].aggregate);
  }

  lemma SameTurn(p: Input, i: nat, key: string, st: SeedState)
    requires Unique(p.ms) && i < |p.needs| && SameKey(p.needs[i].profile) == Some(key)
    ensures Turn(p, i, st, SeedSame(p, i, key, st).0, SeedSame(p, i, key, st).1)
  {
    var n := p.needs[i];
    match Choice(Stats(p, n, key, st), n.aggregate)
    case None => NoTurn(p, i, st);
    case Some(v) =>
      SupplyOfDomain(p, n, key, st, v);
      var supply := IncumbentFirst(n, Members(p, n, key, st, v));
      var (st', rem) := SeedSame(p, i, key, st);
      var (c, left) := Walk(supply, n, RecordFor(p, i), st.claims, n.aggregate);
      SeedSameSome(p, i, n, key, st, v, c, left, Covers(StatOf(p, n, key, st, v).total, n.aggregate),
                   UsedUp(p.ms, n, key, v, left, st.consumed));
      DomainTurn(p, i, key, v, supply, st, st');
  }

  lemma TurnKeepsShort(p: Input, i: nat, st: SeedState, st': SeedState, rem: ResVec, j: nat, old_rem: ResVec)
    requires i < |p.needs| && j < |p.needs| && i != j
    requires Turn(p, i, st, st', rem) && ShortOK(p, st.claims, j, old_rem)
    ensures ShortOK(p, st'.claims, j, old_rem)
  {
    assert HeldBy(st'.claims, j) == HeldBy(st.claims, j);
  }

  lemma TurnKeepsCredits(p: Input, done: set<nat>, i: nat, st: SeedState, st': SeedState, rem: ResVec)
    requires i < |p.needs| && i !in done
    requires Turn(p, i, st, st', rem) && ClaimsCredited(p, st, done)
    ensures ClaimsCredited(p, st', done + {i})
  {
    forall id | id in st'.claims
      ensures st'.claims[id].need in done + {i} && st'.claims[id].need < |p.needs|
      ensures exists m :: Credited(p, st', id, m)
    {
      if id in st.claims {
        var m :| Credited(p, st, id, m);
        assert Credited(p, st', id, m);
      }
    }
  }

  lemma AnyTurn(p: Input, i: nat, st: SeedState)
    requires Unique(p.ms) && i < |p.needs|
    ensures Turn(p, i, st, SeedOne(p, i, st).0, SeedOne(p, i, st).1)
  {
    match SameKey(p.needs[i].profile)
    case None => PlainTurn(p, i, st);
    case Some(key) => SameTurn(p, i, key, st);
  }

  lemma TurnKeepsResidues(p: Input, done: set<nat>, i: nat, st: SeedState, res: map<nat, ResVec>, st': SeedState,
                          rem: ResVec)
    requires Residues(p, done, st.claims, res) && i < |p.needs| && i !in done
    requires Turn(p, i, st, st', rem) && HeldBy(st.claims, i) == {}
    ensures Residues(p, done + {i}, st'.claims, res[i := rem])
  {
    forall j | j in done
      ensures j < |p.needs| && ShortOK(p, st'.claims, j, res[j])
    {
      TurnKeepsShort(p, i, st, st', rem, j, res[j]);
    }
  }

  lemma NoneYet(p: Input, done: set<nat>, i: nat, st: SeedState)
    requires ClaimsCredited(p, st, done) && i !in done
    ensures HeldBy(st.claims, i) == {}
  {
  }

  lemma TurnKeeps(p: Input, done: set<nat>, i: nat, st: SeedState, res: map<nat, ResVec>, st': SeedState, rem: ResVec)
    requires SeedInv(p, done, st, res) && i < |p.needs| && i !in done
    requires Turn(p, i, st, st', rem)
    ensures SeedInv(p, done + {i}, st', res[i := rem])
  {
    TurnKeepsCredits(p, done, i, st, st', rem);
    NoneYet(p, done, i, st);
    TurnKeepsResidues(p, done, i, st, res, st', rem);
  }

  lemma StepKeeps(p: Input, done: set<nat>, i: nat, st: SeedState, res: map<nat, ResVec>)
    requires SeedInv(p, done, st, res) && i < |p.needs| && i !in done
    ensures SeedInv(p, done + {i}, SeedOne(p, i, st).0, res[i := SeedOne(p, i, st).1])
  {
    AnyTurn(p, i, st);
    TurnKeeps(p, done, i, st, res, SeedOne(p, i, st).0, SeedOne(p, i, st).1);
  }

  lemma FoldStep(p: Input, order: seq<nat>, st: SeedState, res: map<nat, ResVec>)
    requires InRange(p, order) && order != []
    ensures SeedFold(p, order, st, res) ==
            SeedFold(p, order[1..], SeedOne(p, order[0], st).0, res[order[0] := SeedOne(p, order[0], st).1])
  {
  }

  lemma {:induction false} FoldKeeps(p: Input, order: seq<nat>, done: set<nat>, st: SeedState, res: map<nat, ResVec>)
    requires SeedInv(p, done, st, res) && InRange(p, order) && Distinct(order)
    requires forall i | i in order :: i !in done
    ensures SeedInv(p, done + (set i | i in order), SeedFold(p, order, st, res).0, SeedFold(p, order, st, res).1)
    decreases |order|
  {
    if order == [] {
      assert done + (set i | i in order) == done;
    } else {
      var i, rest := order[0], order[1..];
      RestDistinct(order, done);
      assert order[0] < |p.needs|;
      StepKeeps(p, done, i, st, res);
      FoldStep(p, order, st, res);
      FoldKeeps(p, rest, done + {i}, SeedOne(p, i, st).0, res[i := SeedOne(p, i, st).1]);
    }
  }

  lemma RestDistinct(order: seq<nat>, done: set<nat>)
    requires Distinct(order) && order != [] && forall i | i in order :: i !in done
    ensures Distinct(order[1..]) && order[0] !in done
    ensures forall i | i in order[1..] :: i !in done + {order[0]}
    ensures done + {order[0]} + (set j | j in order[1..]) == done + (set j | j in order)
  {
    assert order[0] in order;
    assert order[0] !in order[1..];
  }

  /** The outcome of the whole pre-pass. */
  ghost function Seeded(p: Input, order: seq<nat>): (SeedState, map<nat, ResVec>)
    requires InRange(p, order)
  {
    SeedFold(p, order, EMPTY_SEED, map[])
  }

  lemma SeededInv(p: Input, order: seq<nat>)
    requires Unique(p.ms) && PriorityOrder(p, order)
    ensures var (st, res) := Seeded(p, order);
            && SeedInv(p, res.Keys, st, res)
            && forall i :: i in res <==> 0 <= i < |p.needs|
  {
    FoldKeeps(p, order, {}, EMPTY_SEED, map[]);
    var (st, res) := Seeded(p, order);
    assert {} + (set i | i in order) == res.Keys;
  }

  function Short(needs: nat, res: map<nat, ResVec>, retries: nat, k: nat): seq<QueuedNeed>
    requires k <= needs && forall i | 0 <= i < needs :: i in res
  {
    if k == 0 then []
    else Short(needs, res, retries, k - 1) + if IsZero(res[k - 1]) then [] else [QueuedNeed(k - 1, retries)]
  }

  lemma ShortIn(needs: nat, res: map<nat, ResVec>, retries: nat, k: nat, q: QueuedNeed)
    requires k <= needs && forall i | 0 <= i < needs :: i in res
    ensures q in Short(needs, res, retries, k) <==> q.need < k && !IsZero(res[q.need]) && q.retriesLeft == retries
  {
    if k > 0 {
      ShortIn(needs, res, retries, k - 1, q);
    }
  }

  function EnvOf(p: Input, st: SeedState): Env {
    Env(p.ms, p.needs, st.domain, p.retries)
  }

  /** The state the workers are launched in. */
  function Launch(p: Input, st: SeedState, res: map<nat, ResVec>, workers: nat): CycleState
    requires forall i | 0 <= i < |p.needs| :: i in res
  {
    CycleState(st.claims, map[], Short(|p.needs|, res, p.retries, |p.needs|), seq(workers, _ => Waiting), {}, {}, 0)
  }

  lemma SuppliedCreditable(p: Input, n: Need, m: Machine)
    requires m in Supply(p.ms, n)
    ensures m in p.ms && Holds(Creditable, m)
  {
    SupplyIn(p.ms, n, m);
  }

  lemma CreditedMachine(p: Input, done: set<nat>, st: SeedState, id: MachineId)
    requires Unique(p.ms) && ClaimsCredited(p, st, done) && id in st.claims
    ensures ById(p.ms, id).Some?
    ensures var m := ById(p.ms, id).value; m in p.ms && Credited(p, st, id, m) && Holds(Creditable, m)
  {
    var m :| Credited(p, st, id, m);
    SuppliedCreditable(p, p.needs[st.claims[id].need], m);
    ByIdIn(p.ms, m);
  }

  lemma OneBound(p: Input, done: set<nat>, st: SeedState, id: MachineId)
    requires Unique(p.ms) && ClaimsCredited(p, st, done) && id in st.claims
    ensures var m := ById(p.ms, id); m.Some? && m.value.state != Idle && m.value.state != Speculative
    ensures Colocated(EnvOf(p, st), st.claims[id].need, id)
  {
    CreditedMachine(p, done, st, id);
  }

  lemma SeedBound(p: Input, done: set<nat>, st: SeedState)
    requires Unique(p.ms) && ClaimsCredited(p, st, done)
    ensures BoundOnly(EnvOf(p, st), st.claims) && InDomain(EnvOf(p, st), st.claims)
  {
    forall id | id in st.claims
      ensures var m := ById(p.ms, id); m.Some? && m.value.state != Idle && m.value.state != Speculative
      ensures Colocated(EnvOf(p, st), st.claims[id].need, id)
    {
      OneBound(p, done, st, id);
    }
  }

  lemma SeedClaimsOK(p: Input, done: set<nat>, st: SeedState)
    requires Unique(p.ms) && ClaimsCredited(p, st, done)
    ensures ClaimsOK(EnvOf(p, st), st.claims)
  {
    forall id | id in st.claims
      ensures st.claims[id] == RecordFor(p, st.claims[id].need)
    {
      CreditedMachine(p, done, st, id);
    }
  }

  lemma LaunchQueue(p: Input, st: SeedState, res: map<nat, ResVec>, workers: nat)
    requires forall i | 0 <= i < |p.needs| :: i in res && ShortOK(p, st.claims, i, res[i])
    ensures var s := Launch(p, st, res, workers);
            && (forall q | q in s.queue :: q.need < |p.needs| && q.retriesLeft == p.retries)
            && (forall n | 0 <= n < |p.needs| ::
                  IsZero(Deficit(EnvOf(p, st), st.claims, n)) || QueuedNeed(n, p.retries) in s.queue)
  {
    forall q
      ensures q in Launch(p, st, res, workers).queue <==>
              q.need < |p.needs| && !IsZero(res[q.need]) && q.retriesLeft == p.retries
    {
      ShortIn(|p.needs|, res, p.retries, |p.needs|, q);
    }
  }

  lemma ShortOnce(needs: nat, res: map<nat, ResVec>, retries: nat, k: nat)
    requires k <= needs && forall i | 0 <= i < needs :: i in res
    ensures Distinct(Short(needs, res, retries, k))
  {
    if k > 0 {
      ShortOnce(needs, res, retries, k - 1);
      forall q | q in Short(needs, res, retries, k - 1)
        ensures q.need < k - 1
      {
        ShortIn(needs, res, retries, k - 1, q);
      }
    }
  }

  /** The queue holds each Need the pre-pass left short, once and with the full budget, and
      nothing else. */
  ghost predicate QueuesShort(p: Input, st: SeedState, queue: seq<QueuedNeed>) {
    && Distinct(queue)
    && forall q :: q in queue <==>
         q.need < |p.needs| && q.retriesLeft == p.retries && !IsZero(Deficit(EnvOf(p, st), st.claims, q.need))
  }

  lemma LaunchShort(p: Input, st: SeedState, res: map<nat, ResVec>, workers: nat)
    requires forall i | 0 <= i < |p.needs| :: i in res && ShortOK(p, st.claims, i, res[i])
    ensures QueuesShort(p, st, Launch(p, st, res, workers).queue)
  {
    ShortOnce(|p.needs|, res, p.retries, |p.needs|);
    forall q
      ensures q in Launch(p, st, res, workers).queue <==>
              q.need < |p.needs| && q.retriesLeft == p.retries && !IsZero(Deficit(EnvOf(p, st), st.claims, q.need))
    {
      ShortIn(|p.needs|, res, p.retries, |p.needs|, q);
    }
  }

  lemma LaunchStarts(p: Input, st: SeedState, res: map<nat, ResVec>, workers: nat)
    requires SeedInv(p, res.Keys, st, res) && p.retries > 0
    requires forall i :: i in res <==> 0 <= i < |p.needs|
    ensures Starts(EnvOf(p, st), Launch(p, st, res, workers))
    ensures QueuesShort(p, st, Launch(p, st, res, workers).queue)
  {
    SeedClaimsOK(p, res.Keys, st);
    LaunchQueue(p, st, res, workers);
    LaunchShort(p, st, res, workers);
  }

  /** The pre-pass hands the workers exactly what the cycle theorems start from: its
      claims lie on bound or in-flight machines only, each gang's inside its recorded
      domain, and the queue holds the Needs it left short. */
  lemma SeedStarts(p: Input, order: seq<nat>, workers: nat)
    requires Unique(p.ms) && PriorityOrder(p, order) && p.retries > 0
    ensures var (st, res) := Seeded(p, order);
            && (forall i | 0 <= i < |p.needs| :: i in res)
            && Starts(EnvOf(p, st), Launch(p, st, res, workers))
            && BoundOnly(EnvOf(p, st), st.claims) && InDomain(EnvOf(p, st), st.claims)
            && QueuesShort(p, st, Launch(p, st, res, workers).queue)
  {
    SeededInv(p, order);
    var (st, res) := Seeded(p, order);
    SeedBound(p, res.Keys, st);
    LaunchStarts(p, st, res, workers);
  }
}
