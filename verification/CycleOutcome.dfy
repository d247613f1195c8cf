/** What a whole cycle guarantees, from the pre-pass through the workers to the actions
    of the three phases. */
module CycleOutcome {
  import opened Resources
  import opened Fleet
  import opened Views
  import opened Ledger
  import opened Cycle
  import opened CycleSafety
  import opened Seed
  import opened SeedSafety
  import opened SeedStability
  import opened SeedTail
  import opened SeedGangs
  import opened Assign
  import opened Reclaim
  import P = Preempt
  import opened Sequences

  /** One cycle: the pre-pass in priority order, then any legal run of the workers that
      reaches the barrier. */
  ghost predicate IsCycle(p: Input, order: seq<nat>, workers: nat, moves: seq<Move>) {
    && Unique(p.ms) && p.retries > 0 && PriorityOrder(p, order)
    && (forall i | 0 <= i < |p.needs| :: i in Seeded(p, order).1)
    && Legal(EnvAfter(p, order), Start(p, order, workers), moves)
    && AtBarrier(After(EnvAfter(p, order), Start(p, order, workers), moves))
  }

  ghost function EnvAfter(p: Input, order: seq<nat>): Env
    requires InRange(p, order)
  {
    EnvOf(p, Seeded(p, order).0)
  }

  ghost function Start(p: Input, order: seq<nat>, workers: nat): CycleState
    requires InRange(p, order) && forall i | 0 <= i < |p.needs| :: i in Seeded(p, order).1
  {
    Launch(p, Seeded(p, order).0, Seeded(p, order).1, workers)
  }

  ghost function FinalClaims(p: Input, order: seq<nat>, workers: nat, moves: seq<Move>): Claims
    requires IsCycle(p, order, workers, moves)
  {
    After(EnvAfter(p, order), Start(p, order, workers), moves).claims
  }

  /** A whole cycle that ends with the ledger `c`. */
  ghost predicate EndsWith(p: Input, order: seq<nat>, workers: nat, moves: seq<Move>, c: Claims) {
    IsCycle(p, order, workers, moves) && FinalClaims(p, order, workers, moves) == c
  }

  /** The pre-pass's claims all outlive the workers. */
  lemma SeedSurvives(p: Input, order: seq<nat>, workers: nat, moves: seq<Move>)
    requires IsCycle(p, order, workers, moves)
    ensures var c0 := Seeded(p, order).0.claims;
            var c := FinalClaims(p, order, workers, moves);
            && (forall id | id in c0 :: id in c && c[id] == c0[id])
            && (forall id | id in c && id !in c0 :: Earned(EnvAfter(p, order), c, id))
  {
    SeedStarts(p, order, workers);
    LedgerSafety(EnvAfter(p, order), Start(p, order, workers), moves);
  }

  /** Reclaim never takes what is needed. If the cycle leaves a Need without a Same
      constraint unsatisfied, phase 3 drains no Configured machine of its cluster that
      fits it. */
  lemma {:induction false} NeededIsKept(p: Input, order: seq<nat>, workers: nat, moves: seq<Move>, c: Claims, n: nat,
                                        m: Machine, ready: set<string>, policy: ReleasePolicy,
                                        idleSince: map<MachineId, int>, now: int)
    requires EndsWith(p, order, workers, moves, c)
    requires n < |p.needs| && SameKey(p.needs[n].profile).None?
    requires !IsZero(Deficit(EnvAfter(p, order), c, n))
    requires m in p.ms && m.state == Configured && m.cluster == p.needs[n].cluster != ""
    requires Fits(p.needs[n], m)
    ensures !Releases(p.ms, c.Keys, ready, policy, idleSince, now, m.id)
  {
    var env := EnvAfter(p, order);
    var (st, res) := Seeded(p, order);
    SeedSurvives(p, order, workers, moves);
    SeededInv(p, order);
    assert HeldBy(st.claims, n) <= HeldBy(c, n);
    if IsZero(res[n]) {
      DeficitStaysZero(env, st.claims, c, n);
    }
    SupplyIn(p.ms, p.needs[n], m);
    assert m.id in st.claims;
    ClaimedIsKept(p.ms, c.Keys, ready, policy, idleSince, now, m.id);
  }

  /** Phase 3 gives the machine back, by drain or by delete. */
  predicate Releases(ms: seq<Machine>, claimed: set<MachineId>, ready: set<string>, policy: ReleasePolicy,
                     idleSince: map<MachineId, int>, now: int, id: MachineId)
  {
    exists r :: r in Released(ms, claimed, ready, policy, idleSince, now) && r.id == id
  }

  lemma ClaimedIsKept(ms: seq<Machine>, claimed: set<MachineId>, ready: set<string>, policy: ReleasePolicy,
                      idleSince: map<MachineId, int>, now: int, id: MachineId)
    requires id in claimed
    ensures !Releases(ms, claimed, ready, policy, idleSince, now, id)
  {
    forall r | r in Released(ms, claimed, ready, policy, idleSince, now)
      ensures r.id != id
    {
      ReleasedExactly(ms, claimed, ready, policy, idleSince, now, r);
    }
  }

  /** A claim on a Configured machine is the pre-pass's. */
  lemma BoundFromSeed(p: Input, order: seq<nat>, workers: nat, moves: seq<Move>, c: Claims, a: Machine)
    requires EndsWith(p, order, workers, moves, c)
    requires a in p.ms && a.state == Configured && a.id in c
    ensures a.id in Seeded(p, order).0.claims && c[a.id] == Seeded(p, order).0.claims[a.id]
  {
    SeedSurvives(p, order, workers, moves);
    ByIdIn(p.ms, a);
  }

  /** What is given back is the tail of the keep-priority order: a fitting Configured
      machine that phase 3 drains is less worth keeping than any that a Need without a
      Same constraint holds in that cluster. */
  lemma {:induction false} ReleasedTail(p: Input, order: seq<nat>, workers: nat, moves: seq<Move>, c: Claims, n: nat,
                                        a: Machine, b: Machine, ready: set<string>, policy: ReleasePolicy,
                                        idleSince: map<MachineId, int>, now: int)
    requires EndsWith(p, order, workers, moves, c)
    requires n < |p.needs| && SameKey(p.needs[n].profile).None?
    requires a in p.ms && b in p.ms && a.state == Configured && b.state == Configured
    requires a.cluster == p.needs[n].cluster && b.cluster == p.needs[n].cluster != "" && Fits(p.needs[n], b)
    requires a.id in c && c[a.id].need == n
    requires Releases(p.ms, c.Keys, ready, policy, idleSince, now, b.id)
    ensures WorthKeeping(a, b)
  {
    BoundFromSeed(p, order, workers, moves, c, a);
    SeedSurvives(p, order, workers, moves);
    if b.id in c {
      ClaimedIsKept(p.ms, c.Keys, ready, policy, idleSince, now, b.id);
    }
    SeedKeepsBest(p, order, n);
    BoundKeepsBest(p, Seeded(p, order).0.claims, n, a, b);
  }

  // ---- Quiet cycles -------------------------------------------------------

  ghost predicate Covered(p: Input, order: seq<nat>)
    requires InRange(p, order)
  {
    forall i | i in Seeded(p, order).1 :: IsZero(Seeded(p, order).1[i])
  }

  /** With nothing short, no worker has anything to do. */
  lemma CoveredIdle(p: Input, order: seq<nat>, workers: nat, moves: seq<Move>)
    requires IsCycle(p, order, workers, moves) && Covered(p, order)
    ensures moves == [] && FinalClaims(p, order, workers, moves) == Seeded(p, order).0.claims
  {
    var s := Start(p, order, workers);
    var (st, res) := Seeded(p, order);
    forall q
      ensures q !in s.queue
    {
      ShortIn(|p.needs|, res, p.retries, |p.needs|, q);
    }
    SomeElement(s.queue);
    BarrierEnds(EnvAfter(p, order), s, moves);
  }

  lemma BarrierEnds(env: Env, s: CycleState, moves: seq<Move>)
    requires AtBarrier(s) && Legal(env, s, moves)
    ensures moves == []
  {
    if moves != [] {
      BarrierStuck(env, s, moves[0]);
    }
  }

  lemma BarrierStuck(env: Env, s: CycleState, mv: Move)
    requires AtBarrier(s)
    ensures !Enabled(env, s, mv)
  {
    assert mv.w < |s.workers| ==> s.workers[mv.w] in s.workers;
  }

  lemma NothingAcquired(env: Env, c: Claims, rs: seq<NeedResult>, k: nat)
    requires Results(env, c, rs) && k <= |env.needs| && BoundOnly(env, c)
    ensures ActionsUpTo(env.needs, rs, k) == []
  {
    var actions := ActionsUpTo(env.needs, rs, k);
    ActionsExact(env, c, rs, k);
    forall a | a in actions
      ensures false
    {
      var ok := Acquires(env, c, a);
    }
    SomeElement(actions);
  }

  lemma NothingShort(env: Env, c: Claims, rs: seq<NeedResult>, k: nat)
    requires Results(env, c, rs) && k <= |env.needs|
    requires forall n | 0 <= n < |env.needs| :: IsZero(Deficit(env, c, n))
    ensures ShortUpTo(env.needs, rs, k) == []
  {
    var short := ShortUpTo(env.needs, rs, k);
    forall u | u in short
      ensures false
    {
      ReportedShort(env, c, rs, k, u);
    }
    SomeElement(short);
  }

  lemma CoveredDeficits(p: Input, order: seq<nat>)
    requires Unique(p.ms) && PriorityOrder(p, order) && Covered(p, order)
    ensures forall n | 0 <= n < |p.needs| :: IsZero(Deficit(EnvAfter(p, order), Seeded(p, order).0.claims, n))
  {
    SeededInv(p, order);
    var (st, res) := Seeded(p, order);
    forall n | 0 <= n < |p.needs|
      ensures IsZero(Deficit(EnvAfter(p, order), st.claims, n))
    {
      assert n in res && ShortOK(p, st.claims, n, res[n]);
    }
  }

  /** A cycle whose pre-pass covers every Need acquires nothing and reports nothing
      short, so it preempts nothing. */
  lemma CoveredQuiet(p: Input, order: seq<nat>, workers: nat, moves: seq<Move>, rs: seq<NeedResult>, o: P.Options)
    requires IsCycle(p, order, workers, moves) && Covered(p, order)
    requires Results(EnvAfter(p, order), FinalClaims(p, order, workers, moves), rs)
    ensures ActionsUpTo(p.needs, rs, |p.needs|) == []
    ensures ShortUpTo(p.needs, rs, |p.needs|) == []
    ensures P.Run(p.ms, P.ByPriority(ShortUpTo(p.needs, rs, |p.needs|)), o, {}) == ([], [])
  {
    var env := EnvAfter(p, order);
    CoveredIdle(p, order, workers, moves);
    SeedStarts(p, order, workers);
    CoveredDeficits(p, order);
    NothingAcquired(env, FinalClaims(p, order, workers, moves), rs, |p.needs|);
    NothingShort(env, FinalClaims(p, order, workers, moves), rs, |p.needs|);
  }

  /** `q` is the demand of `p` on a fleet that gave back machines the pre-pass of `p` left
      unclaimed, among them all unclaimed Configured ones of the ready clusters. */
  ghost predicate GivenBack(p: Input, q: Input, order: seq<nat>, gone: set<MachineId>, ready: set<string>)
    requires InRange(p, order)
  {
    && q == p.(ms := q.ms) && GaveBack(p.ms, q.ms, gone)
    && gone !! Seeded(p, order).0.claims.Keys
    && forall m | m in p.ms && m.state == Configured && m.cluster in ready && m.id !in Seeded(p, order).0.claims ::
         m.id in gone
  }

  /** If the pre-pass covers every Need and does the same after the unclaimed machines were
      given back, the cycle after that is at rest. */
  lemma {:induction false} RestsAgain(p: Input, q: Input, order: seq<nat>, workers: nat, moves: seq<Move>, c: Claims,
                                      rs: seq<NeedResult>, gone: set<MachineId>, ready: set<string>, o: P.Options,
                                      policy: ReleasePolicy, idleSince: map<MachineId, int>, now: int)
    requires InRange(p, order) && Covered(p, order) && GivenBack(p, q, order, gone, ready)
    requires EndsWith(q, order, workers, moves, c) && Results(EnvAfter(q, order), c, rs)
    requires Seeded(q, order) == Seeded(p, order)
    ensures moves == [] && c == Seeded(p, order).0.claims && Rests(q, rs, o, c, ready, policy, idleSince, now)
  {
    CoveredIdle(q, order, workers, moves);
    CoveredQuiet(q, order, workers, moves, rs, o);
    forall r | r in Released(q.ms, c.Keys, ready, policy, idleSince, now)
      ensures !r.Drain?
    {
      ReleasedExactly(q.ms, c.Keys, ready, policy, idleSince, now, r);
      if r.Drain? {
        var m :| m in q.ms && MayRelease(m, c.Keys, ready, policy, idleSince, now, r);
        StillThere(p.ms, q.ms, gone, m);
      }
    }
  }

  /** No oscillation. Without Same constraints in the demand, when a cycle's pre-pass
      covers every Need, give back what it left unclaimed: the next cycle on the same
      demand credits the same machines to the same Needs, and neither acquires nor
      preempts nor reclaims anything. */
  lemma {:induction false} NoOscillation(p: Input, q: Input, order: seq<nat>, workers: nat, moves: seq<Move>, c: Claims,
                                         rs: seq<NeedResult>, gone: set<MachineId>, ready: set<string>, o: P.Options,
                                         policy: ReleasePolicy, idleSince: map<MachineId, int>, now: int)
    requires InRange(p, order) && AllWithoutSame(p) && Covered(p, order) && GivenBack(p, q, order, gone, ready)
    requires EndsWith(q, order, workers, moves, c) && Results(EnvAfter(q, order), c, rs)
    ensures moves == [] && c == Seeded(p, order).0.claims && Rests(q, rs, o, c, ready, policy, idleSince, now)
  {
    FoldWithout(p, q.ms, order, EMPTY_SEED, map[], gone);
    RestsAgain(p, q, order, workers, moves, c, rs, gone, ready, o, policy, idleSince, now);
  }

  /** The same for gangs. When the demand is gangs only, each served by its own machines
      in exactly one domain, the pre-pass claims own machines alone; give back what it
      left unclaimed, let acquirable supply come and go, and the next cycle claims the same
      and neither acquires nor preempts nor reclaims anything. */
  lemma {:induction false} GangsRest(p: Input, q: Input, order: seq<nat>, workers: nat, moves: seq<Move>, c: Claims,
                                     rs: seq<NeedResult>, gone: set<MachineId>, ready: set<string>, o: P.Options,
                                     policy: ReleasePolicy, idleSince: map<MachineId, int>, now: int)
    requires Unique(p.ms) && AllServed(p) && InRange(p, order) && GivenBack(p, q, order, gone, ready)
    requires EndsWith(q, order, workers, moves, c) && Results(EnvAfter(q, order), c, rs)
    ensures moves == [] && c == Seeded(p, order).0.claims && Rests(q, rs, o, c, ready, policy, idleSince, now)
    ensures forall id | id in c :: OnOwn(p, c, id)
  {
    GangsServed(p, order);
    GangsRepeat(p, q, order, gone);
    RestsAgain(p, q, order, workers, moves, c, rs, gone, ready, o, policy, idleSince, now);
  }

  /** The three phases emit no acquisition, no preemption and no reclaim. */
  predicate Rests(p: Input, rs: seq<NeedResult>, o: P.Options, c: Claims, ready: set<string>, policy: ReleasePolicy,
                  idleSince: map<MachineId, int>, now: int)
    requires |rs| == |p.needs|
  {
    && ActionsUpTo(p.needs, rs, |p.needs|) == []
    && P.Run(p.ms, P.ByPriority(ShortUpTo(p.needs, rs, |p.needs|)), o, {}) == ([], [])
    && forall r | r in Released(p.ms, c.Keys, ready, policy, idleSince, now) :: !r.Drain?
  }

  lemma StillThere(ms: seq<Machine>, ms2: seq<Machine>, gone: set<MachineId>, m: Machine)
    requires GaveBack(ms, ms2, gone) && m in ms2 && Holds(Creditable, m)
    ensures m in ms && m.id !in gone
  {
    SelectIn(Creditable, ms2, m);
    SelectIn(Without(gone), Select(Creditable, ms), m);
    SelectIn(Creditable, ms, m);
  }
}
