/** Every cycle ends, whatever the interleaving: a commit raises the claim rank of a
    machine, and every other move spends budget or advances a walk. */
module CycleTermination {
  import opened Resources
  import opened Fleet
  import opened Views
  import opened Ledger
  import opened Cycle
  import opened CycleSafety
  import opened CycleLaws

  function Precedences(env: Env): set<Precedence> {
    set n | 0 <= n < |env.needs| :: PrecedenceOf(env.needs[n].profile)
  }

  function Below(env: Env, p: Precedence): set<Precedence> {
    set q | q in Precedences(env) && q.Less(p)
  }

  /** How far a machine's claim can still rise: through each precedence of the demand. */
  function Gap(env: Env, c: Claims, id: MachineId): nat {
    Monus(|Precedences(env)|, if id in c then 1 + |Below(env, c[id].precedence)| else 0)
  }

  function Lift(env: Env, c: Claims, id: MachineId): nat {
    if id in c then |Below(env, c[id].precedence)| else 0
  }

  function SumGap(env: Env, ms: seq<Machine>, c: Claims): nat {
    if ms == [] then 0 else Gap(env, c, ms[0].id) + SumGap(env, ms[1..], c)
  }

  function SumLift(env: Env, ms: seq<Machine>, c: Claims): nat {
    if ms == [] then 0 else Lift(env, c, ms[0].id) + SumLift(env, ms[1..], c)
  }

  lemma ProperSubset<T>(a: set<T>, b: set<T>)
    requires a < b
    ensures |a| < |b|
  {
    var x :| x in b && x !in a;
    assert a <= b - {x};
    SubsetSize(a, b - {x});
  }

  lemma SubsetSize<T>(a: set<T>, b: set<T>)
    requires a <= b
    ensures |a| <= |b|
  {
    if a != {} {
      var x :| x in a;
      SubsetSize(a - {x}, b - {x});
    }
  }

  lemma BelowRises(env: Env, p: Precedence, q: Precedence)
    requires p in Precedences(env)
    ensures |Below(env, p)| < |Precedences(env)|
    ensures p.Less(q) ==> |Below(env, p)| < |Below(env, q)|
  {
    PrecedenceOrder(p, p, p);
    assert p !in Below(env, p);
    ProperSubset(Below(env, p), Precedences(env));
    if p.Less(q) {
      forall x | x in Below(env, p)
        ensures x in Below(env, q)
      {
        PrecedenceOrder(x, p, q);
      }
      assert p in Below(env, q);
      ProperSubset(Below(env, p), Below(env, q));
    }
  }

  lemma ClaimRank(env: Env, c: Claims, id: MachineId)
    requires ClaimsOK(env, c) && id in c
    ensures c[id].precedence in Precedences(env)
  {
  }

  lemma OneMachine(env: Env, c: Claims, p: Proposal, id: MachineId)
    requires ClaimsOK(env, c) && ClaimsOK(env, Commit(c, p))
    ensures Gap(env, Commit(c, p), id) <= Gap(env, c, id)
    ensures id in Taken(c, p) ==> Gap(env, Commit(c, p), id) < Gap(env, c, id)
    ensures Lift(env, Commit(c, p), id) >= Lift(env, c, id) + if id in Evicted(c, p) then 1 else 0
  {
    var d := Commit(c, p);
    if id in c {
      ClaimRank(env, c, id);
      BelowRises(env, c[id].precedence, d[id].precedence);
    }
    if id in d {
      ClaimRank(env, d, id);
      BelowRises(env, d[id].precedence, d[id].precedence);
    }
  }

  lemma CommitSums(env: Env, ms: seq<Machine>, c: Claims, p: Proposal)
    requires ClaimsOK(env, c) && ClaimsOK(env, Commit(c, p))
    ensures SumGap(env, ms, Commit(c, p)) <= SumGap(env, ms, c)
    ensures (exists m :: m in ms && m.id in Taken(c, p)) ==> SumGap(env, ms, Commit(c, p)) < SumGap(env, ms, c)
    ensures SumLift(env, ms, Commit(c, p)) >= SumLift(env, ms, c) + CountIn(ms, Evicted(c, p))
  {
    if ms != [] {
      OneMachine(env, c, p, ms[0].id);
      CommitSums(env, ms[1..], c, p);
      if exists m :: m in ms && m.id in Taken(c, p) {
        var m :| m in ms && m.id in Taken(c, p);
        assert m == ms[0] || m in ms[1..];
      }
    }
  }

  lemma LiftBound(env: Env, ms: seq<Machine>, c: Claims)
    requires ClaimsOK(env, c)
    ensures SumLift(env, ms, c) <= Times(|ms|, Monus(|Precedences(env)|, 1))
  {
    if ms != [] {
      LiftBound(env, ms[1..], c);
      if ms[0].id in c {
        ClaimRank(env, c, ms[0].id);
        BelowRises(env, c[ms[0].id].precedence, c[ms[0].id].precedence);
      }
    }
  }

  function SpanUpTo(env: Env, k: nat): nat
    requires k <= |env.needs|
  {
    if k == 0 then 0
    else SpanUpTo(env, k - 1) + |PoolFor(env, k - 1, Idle)| + |PoolFor(env, k - 1, Speculative)|
  }

  function Span(env: Env): nat {
    SpanUpTo(env, |env.needs|)
  }

  lemma PoolInSpan(env: Env, n: nat, k: nat)
    requires n < k <= |env.needs|
    ensures |PoolFor(env, n, Idle)| <= SpanUpTo(env, k) && |PoolFor(env, n, Speculative)| <= SpanUpTo(env, k)
  {
    if n < k - 1 {
      PoolInSpan(env, n, k - 1);
    }
  }

  /** The cost of one trip round the retry loop. */
  function Trip(env: Env): nat {
    3 * Span(env) + 10
  }

  function EntryWeight(env: Env, q: QueuedNeed): nat {
    if q.retriesLeft > 0 then Times(q.retriesLeft + 3, Trip(env)) else 0
  }

  function SumEntries(env: Env, qs: seq<QueuedNeed>): nat {
    if qs == [] then 0 else EntryWeight(env, qs[0]) + SumEntries(env, qs[1..])
  }

  function PhaseWeight(env: Env, ph: Phase): int {
    match ph
    case Top => 3 * Span(env) + 8
    case Searching => 4
    case Pass1(i, _, _) => 3 * Span(env) + 7 - i
    case Pass2(i, _, _) => 2 * Span(env) + 6 - 2 * i
    case Check2(i, _, _) => 2 * Span(env) + 5 - 2 * i
    case Chosen(_, _) => 3
    case Observed(_, _, _) => 2
    case Pushing(todo, committed) => 1 + |todo| + SumEntries(env, todo) + if committed then Trip(env) else 0
  }

  function Trips(r: Worker): nat
    requires r.Running?
  {
    (if r.retries > 0 then r.retries else 0) + if r.st == Idle then 2 else 1
  }

  function WorkerWeight(env: Env, r: Worker): int {
    if r.Waiting? then 0 else Times(Trips(r), Trip(env)) + PhaseWeight(env, r.phase)
  }

  function SumWorkers(env: Env, rs: seq<Worker>): int {
    if rs == [] then 0 else WorkerWeight(env, rs[0]) + SumWorkers(env, rs[1..])
  }

  /** The most one re-queued Need can add. */
  function Requeue(env: Env): nat {
    1 + Times(env.retries + 3, Trip(env))
  }

  /** More than any commit can add to the remaining work. */
  function Refill(env: Env): nat {
    Times(|env.needs|, Requeue(env)) + Trip(env) + 1
  }

  function Potential(env: Env, s: CycleState): int {
    Times(SumGap(env, env.machines, s.claims), Refill(env)) + SumEntries(env, s.queue) + SumWorkers(env, s.workers)
  }

  lemma EntriesConcat(env: Env, a: seq<QueuedNeed>, b: seq<QueuedNeed>)
    ensures SumEntries(env, a + b) == SumEntries(env, a) + SumEntries(env, b)
  {
    if a == [] {
      assert a + b == b;
    } else {
      assert (a + b)[1..] == a[1..] + b;
      EntriesConcat(env, a[1..], b);
    }
  }

  lemma WorkersUpdate(env: Env, rs: seq<Worker>, w: nat, r: Worker)
    requires w < |rs|
    ensures SumWorkers(env, rs[w := r]) == SumWorkers(env, rs) - WorkerWeight(env, rs[w]) + WorkerWeight(env, r)
  {
    if w == 0 {
      assert rs[0 := r][1..] == rs[1..];
    } else {
      assert rs[w := r][1..] == rs[1..][w - 1 := r];
      WorkersUpdate(env, rs[1..], w - 1, r);
    }
  }

  lemma WeightNonneg(env: Env, r: Worker)
    requires WorkerOK(env, r)
    ensures WorkerWeight(env, r) >= 0
    ensures r.Running? ==> PhaseWeight(env, r.phase) > 0
  {
    if r.Running? {
      PoolInSpan(env, r.need, |env.needs|);
    }
  }

  lemma SumWorkersNonneg(env: Env, rs: seq<Worker>)
    requires forall r | r in rs :: WorkerOK(env, r)
    ensures SumWorkers(env, rs) >= 0
  {
    if rs != [] {
      WeightNonneg(env, rs[0]);
      SumWorkersNonneg(env, rs[1..]);
    }
  }

  /** Going back to the top of the loop with fewer trips left. */
  lemma FewerTrips(env: Env, r: Worker, r': Worker)
    requires r.Running? && WorkerOK(env, r) && r'.Running? && r'.phase == Top
    requires Trips(r') < Trips(r)
    ensures WorkerWeight(env, r') < WorkerWeight(env, r)
  {
    WeightNonneg(env, r);
    TimesMonotone(Trips(r'), Trips(r), Trip(env));
  }

  lemma LeaveWeight(env: Env, s: CycleState, w: nat)
    requires Runs(env, s, w) && WorkerOK(env, s.workers[w])
    ensures SumWorkers(env, LeaveState(s, w).workers) < SumWorkers(env, s.workers)
    ensures SumWorkers(env, EndRun(s, w).workers) < SumWorkers(env, s.workers)
  {
    var r := s.workers[w];
    WeightNonneg(env, r);
    WorkersUpdate(env, s.workers, w, Waiting);
    if r.st == Idle {
      var r' := r.(st := Speculative, phase := Top);
      FewerTrips(env, r, r');
      WorkersUpdate(env, s.workers, w, r');
    }
  }

  lemma EntryOut(env: Env, qs: seq<QueuedNeed>, at: nat)
    requires at < |qs|
    ensures SumEntries(env, qs) == EntryWeight(env, qs[at]) + SumEntries(env, qs[..at] + qs[at + 1..])
  {
    var q, before, after := qs[at], qs[..at], qs[at + 1..];
    assert qs == before + ([q] + after);
    EntriesConcat(env, before, [q] + after);
    EntriesConcat(env, before, after);
    assert ([q] + after)[1..] == after;
  }

  /** A run starts with less work than its queue entry stood for. */
  lemma RunStarts(env: Env, q: QueuedNeed)
    requires q.retriesLeft > 0
    ensures WorkerWeight(env, Running(q.need, q.retriesLeft, Idle, Top)) < EntryWeight(env, q)
  {
    assert Times(q.retriesLeft + 3, Trip(env)) == Trip(env) + Times(q.retriesLeft + 2, Trip(env));
  }

  lemma PullWeight(env: Env, c0: Claims, s: CycleState, w: nat, at: nat)
    requires Inv(env, c0, s) && Enabled(env, s, Pull(w, at))
    ensures Potential(env, Apply(env, s, Pull(w, at))) < Potential(env, s)
  {
    var q := s.queue[at];
    assert q in s.queue;
    EntryOut(env, s.queue, at);
    RunStarts(env, q);
    WorkersUpdate(env, s.workers, w, Running(q.need, q.retriesLeft, Idle, Top));
  }

  /** The shapes one read of the walk can lead to. */
  predicate Onward(ph: Phase, next: Phase, len: nat) {
    next.Chosen? ||
    match ph
    case Pass1(i, _, _) => if i >= len then next.Pass2? && next.i == 0 else next.Pass1? && next.i == i + 1
    case Pass2(i, _, _) => i < len && ((next.Pass2? && next.i == i + 1) || (next.Check2? && next.i == i))
    case Check2(i, _, _) => next.Pass2? && next.i == i + 1
    case _ => false
  }

  lemma ScanOnward(env: Env, c: Claims, r: Worker)
    requires r.Running? && WorkerOK(env, r)
    requires r.phase.Pass1? || r.phase.Pass2? || r.phase.Check2?
    ensures Onward(r.phase, AfterScan(env, c, r), |PoolFor(env, r.need, r.st)|)
  {
    assert r.phase.Check2? ==> r.phase.i < |PoolFor(env, r.need, r.st)|;
  }

  lemma OnwardWeight(env: Env, ph: Phase, next: Phase, len: nat)
    requires Onward(ph, next, len) && len <= Span(env)
    requires ((ph.Pass1? || ph.Pass2?) && ph.i <= len) || (ph.Check2? && ph.i < len)
    ensures PhaseWeight(env, next) < PhaseWeight(env, ph)
  {
  }

  lemma ScanWeight(env: Env, c: Claims, r: Worker)
    requires r.Running? && WorkerOK(env, r)
    requires r.phase.Pass1? || r.phase.Pass2? || r.phase.Check2?
    ensures PhaseWeight(env, AfterScan(env, c, r)) < PhaseWeight(env, r.phase)
  {
    PoolInSpan(env, r.need, |env.needs|);
    ScanOnward(env, c, r);
    OnwardWeight(env, r.phase, AfterScan(env, c, r), |PoolFor(env, r.need, r.st)|);
  }

  lemma PhaseShift(env: Env, s: CycleState, w: nat, next: Phase)
    requires Runs(env, s, w)
    ensures SumWorkers(env, SetWorker(s, w, s.workers[w].(phase := next)).workers) ==
            SumWorkers(env, s.workers) - PhaseWeight(env, s.workers[w].phase) + PhaseWeight(env, next)
  {
    WorkersUpdate(env, s.workers, w, s.workers[w].(phase := next));
  }

  /** A move that only advances one worker's phase. */
  lemma PhaseDrop(env: Env, s: CycleState, w: nat, next: Phase)
    requires Runs(env, s, w) && PhaseWeight(env, next) < PhaseWeight(env, s.workers[w].phase)
    ensures Potential(env, SetWorker(s, w, s.workers[w].(phase := next))) < Potential(env, s)
  {
    PhaseShift(env, s, w, next);
  }

  lemma LookWeight(env: Env, c0: Claims, s: CycleState, w: nat)
    requires Inv(env, c0, s) && Enabled(env, s, Look(w))
    ensures Potential(env, AfterLook(env, s, w)) < Potential(env, s)
  {
    var r := s.workers[w];
    assert r in s.workers;
    LeaveWeight(env, s, w);
    PhaseDrop(env, s, w, Searching);
    PhaseDrop(env, s, w, Pass1(0, [], Deficit(env, s.claims, r.need)));
  }

  lemma WalkWeight(env: Env, c0: Claims, s: CycleState, mv: Move)
    requires Inv(env, c0, s) && Enabled(env, s, mv)
    requires mv.Look? || mv.Search? || mv.Scan? || mv.Observe?
    ensures Potential(env, Apply(env, s, mv)) < Potential(env, s)
  {
    var r := s.workers[mv.w];
    assert r in s.workers;
    match mv
    case Look(w) => LookWeight(env, c0, s, w);
    case Search(w, found, bucket) => PhaseDrop(env, s, w, Chosen(found, bucket));
    case Scan(w) =>
      ScanWeight(env, s.claims, r);
      PhaseDrop(env, s, w, AfterScan(env, s.claims, r));
    case Observe(w) =>
      LeaveWeight(env, s, w);
      PhaseDrop(env, s, w, Observed(r.phase.out, r.phase.bucket, SeqAt(s, r.phase.bucket)));
  }

  lemma RequeueWeight(env: Env, s: CycleState, w: nat)
    requires Enabled(env, s, Push(w)) && s.workers[w].phase.todo != []
    ensures Potential(env, AfterPush(env, s, w)) < Potential(env, s)
  {
    var ph := s.workers[w].phase;
    PhaseShift(env, s, w, Pushing(ph.todo[1..], ph.committed));
    EntriesConcat(env, s.queue, [ph.todo[0]]);
    assert SumEntries(env, [ph.todo[0]]) == EntryWeight(env, ph.todo[0]);
  }

  lemma PushWeight(env: Env, c0: Claims, s: CycleState, w: nat)
    requires Inv(env, c0, s) && Enabled(env, s, Push(w))
    ensures Potential(env, AfterPush(env, s, w)) < Potential(env, s)
  {
    var r := s.workers[w];
    assert r in s.workers;
    if r.phase.todo != [] {
      RequeueWeight(env, s, w);
    } else if !r.phase.committed {
      var r' := r.(retries := r.retries - 1, phase := Top);
      FewerTrips(env, r, r');
      WorkersUpdate(env, s.workers, w, r');
    } else if Plain(env.needs[r.need]) {
      PhaseDrop(env, s, w, Top);
    } else {
      LeaveWeight(env, s, w);
    }
  }

  lemma DistinctNeeds(displaced: seq<QueuedNeed>, k: nat)
    requires forall i, j | 0 <= i < j < |displaced| :: displaced[i].need != displaced[j].need
    requires forall d | d in displaced :: d.need < k
    ensures |displaced| <= k
  {
    RangeSize(k);
    NeedSet(displaced);
    SubsetSize(set d | d in displaced :: d.need, Range(k));
  }

  function Range(k: nat): set<nat> {
    if k == 0 then {} else Range(k - 1) + {k - 1}
  }

  lemma RangeSize(k: nat)
    ensures |Range(k)| == k
    ensures forall i: nat :: i in Range(k) <==> i < k
  {
    if k > 0 {
      RangeSize(k - 1);
    }
  }

  lemma NeedSet(displaced: seq<QueuedNeed>)
    requires forall i, j | 0 <= i < j < |displaced| :: displaced[i].need != displaced[j].need
    ensures |set d | d in displaced :: d.need| == |displaced|
  {
    if displaced != [] {
      NeedSet(displaced[1..]);
      assert (set d | d in displaced :: d.need) ==
             (set d | d in displaced[1..] :: d.need) + {displaced[0].need};
    }
  }

  lemma EntriesBound(env: Env, displaced: seq<QueuedNeed>, each: nat)
    requires forall d | d in displaced :: 1 + EntryWeight(env, d) <= each
    ensures |displaced| + SumEntries(env, displaced) <= Times(|displaced|, each)
  {
    if displaced != [] {
      EntriesBound(env, displaced[1..], each);
    }
  }

  lemma EntryBound(env: Env, d: QueuedNeed)
    requires d.retriesLeft < env.retries
    ensures 1 + EntryWeight(env, d) <= Requeue(env)
  {
    if d.retriesLeft > 0 {
      TimesMonotone(d.retriesLeft + 3, env.retries + 3, Trip(env));
    }
  }

  lemma RefillBound(env: Env, c: Claims, p: Proposal, displaced: seq<QueuedNeed>)
    requires ClaimsOK(env, c) && IsDisplaced(c, p, displaced)
    ensures 1 + |displaced| + SumEntries(env, displaced) + Trip(env) <= Refill(env)
  {
    DisplacedOK(env, c, p, displaced);
    var k := |env.needs|;
    assert |displaced| <= k by {
      DistinctNeeds(displaced, k);
    }
    forall d | d in displaced
      ensures 1 + EntryWeight(env, d) <= Requeue(env)
    {
      EntryBound(env, d);
    }
    EntriesBound(env, displaced, Requeue(env));
    TimesMonotone(|displaced|, k, Requeue(env));
  }

  lemma SomeTaken(env: Env, s: CycleState, w: nat)
    requires Runs(env, s, w) && WorkerOK(env, s.workers[w]) && s.workers[w].phase.Observed?
    requires Accepts(s.claims, SeqAt(s, s.workers[w].phase.bucket), ProposalOf(env, s.workers[w]))
    ensures exists m :: m in env.machines && m.id in Taken(s.claims, ProposalOf(env, s.workers[w]))
  {
    var p := ProposalOf(env, s.workers[w]);
    assert p.machines[0] in p.machines;
    var id :| id in p.machines && Takeable(s.claims, id, p.precedence);
    assert OfferableId(env, p.need, s.workers[w].st, id);
    ByIdFound(env.machines, id);
    assert id in Taken(s.claims, p);
  }

  lemma CommitWeight(env: Env, s: CycleState, w: nat, displaced: seq<QueuedNeed>, gap: nat)
    requires Runs(env, s, w) && s.workers[w].phase.Observed?
    requires 1 + |displaced| + SumEntries(env, displaced) + Trip(env) <= Refill(env)
    requires gap < SumGap(env, env.machines, s.claims)
    ensures Times(gap, Refill(env)) + SumEntries(env, s.queue)
            + SumWorkers(env, SetWorker(s, w, s.workers[w].(phase := Pushing(displaced, true))).workers)
            < Potential(env, s)
  {
    PhaseShift(env, s, w, Pushing(displaced, true));
    TimesMonotone(gap, SumGap(env, env.machines, s.claims), Refill(env));
  }

  lemma ProposeWeight(env: Env, c0: Claims, s: CycleState, w: nat, displaced: seq<QueuedNeed>)
    requires Inv(env, c0, s) && Enabled(env, s, Propose(w, displaced))
    ensures Potential(env, AfterPropose(env, s, w, displaced)) < Potential(env, s)
  {
    var r := s.workers[w];
    assert r in s.workers;
    var p := ProposalOf(env, r);
    if Accepts(s.claims, SeqAt(s, p.bucket), p) {
      SomeTaken(env, s, w);
      CommitOK(env, s, w);
      CommitSums(env, env.machines, s.claims, p);
      RefillBound(env, s.claims, p, displaced);
      CommitWeight(env, s, w, displaced, SumGap(env, env.machines, Commit(s.claims, p)));
    } else {
      PhaseDrop(env, s, w, Pushing([], false));
    }
  }

  /** Every move strictly lowers the potential. */
  lemma MoveDecreases(env: Env, c0: Claims, s: CycleState, mv: Move)
    requires Inv(env, c0, s) && Enabled(env, s, mv)
    ensures Potential(env, Apply(env, s, mv)) < Potential(env, s)
  {
    match mv
    case Pull(w, at) => PullWeight(env, c0, s, w, at);
    case Propose(w, displaced) => ProposeWeight(env, c0, s, w, displaced);
    case Push(w) => PushWeight(env, c0, s, w);
    case _ => WalkWeight(env, c0, s, mv);
  }

  lemma {:induction false} RunBound(env: Env, c0: Claims, s: CycleState, moves: seq<Move>)
    requires Inv(env, c0, s) && Legal(env, s, moves)
    ensures |moves| <= Potential(env, s)
    decreases |moves|
  {
    if moves == [] {
      SumWorkersNonneg(env, s.workers);
    } else {
      MoveDecreases(env, c0, s, moves[0]);
      MoveKeeps(env, c0, s, moves[0]);
      RunBound(env, c0, Apply(env, s, moves[0]), moves[1..]);
    }
  }

  /** Every cycle terminates under any interleaving, within a bound known up front. */
  lemma Terminates(env: Env, s: CycleState, moves: seq<Move>)
    requires Starts(env, s) && Legal(env, s, moves)
    ensures |moves| <= Potential(env, s)
  {
    StartsInv(env, s);
    RunBound(env, s.claims, s, moves);
  }

  lemma EvictionsStep(env: Env, c0: Claims, s: CycleState, mv: Move)
    requires Inv(env, c0, s) && Enabled(env, s, mv)
    requires s.evictions <= SumLift(env, env.machines, s.claims)
    ensures Apply(env, s, mv).evictions <= SumLift(env, env.machines, Apply(env, s, mv).claims)
  {
    if !mv.Propose? {
      QuietMove(env, s, mv);
    } else {
      var p := ProposalOf(env, s.workers[mv.w]);
      if Accepts(s.claims, SeqAt(s, p.bucket), p) {
        assert s.workers[mv.w] in s.workers;
        CommitOK(env, s, mv.w);
        CommitSums(env, env.machines, s.claims, p);
      }
    }
  }

  lemma {:induction false} EvictionsLift(env: Env, c0: Claims, s: CycleState, moves: seq<Move>)
    requires Inv(env, c0, s) && Legal(env, s, moves)
    requires s.evictions <= SumLift(env, env.machines, s.claims)
    ensures After(env, s, moves).evictions <= SumLift(env, env.machines, After(env, s, moves).claims)
    decreases |moves|
  {
    if moves != [] {
      EvictionsStep(env, c0, s, moves[0]);
      MoveKeeps(env, c0, s, moves[0]);
      EvictionsLift(env, c0, Apply(env, s, moves[0]), moves[1..]);
    }
  }

  /** Machines change hands by displacement at most (precedences - 1) times each. */
  lemma EvictionBound(env: Env, s: CycleState, moves: seq<Move>)
    requires Starts(env, s) && Legal(env, s, moves)
    ensures After(env, s, moves).evictions <= Times(|env.machines|, Monus(|Precedences(env)|, 1))
  {
    StartsInv(env, s);
    EvictionsLift(env, s.claims, s, moves);
    RunKeeps(env, s.claims, s, moves);
    LiftBound(env, env.machines, After(env, s, moves).claims);
  }

  // ---- Progress -----------------------------------------------------------

  /** The evicted Needs can be listed, each with its least budget. */
  lemma {:induction false} SomeDisplaced(c: Claims, p: Proposal, left: set<MachineId>, listed: seq<QueuedNeed>)
    returns (displaced: seq<QueuedNeed>)
    requires left <= Evicted(c, p)
    requires forall i, j | 0 <= i < j < |listed| :: listed[i].need != listed[j].need
    requires forall d | d in listed :: LeastBudget(c, p, d)
    requires forall m | m in Evicted(c, p) && m !in left :: exists d :: d in listed && d.need == c[m].need
    ensures IsDisplaced(c, p, displaced)
    decreases left
  {
    if left == {} {
      displaced := listed;
    } else {
      var m :| m in left;
      if exists d :: d in listed && d.need == c[m].need {
        displaced := SomeDisplaced(c, p, left - {m}, listed);
      } else {
        var least := LeastOf(c, p, Evicted(c, p), m);
        var d := QueuedNeed(c[m].need, c[least].retriesLeft - 1);
        assert LeastBudget(c, p, d);
        assert d in listed + [d];
        forall x | x in Evicted(c, p) && x !in left - {m}
          ensures exists e :: e in listed + [d] && e.need == c[x].need
        {
          if x != m {
            var e :| e in listed && e.need == c[x].need;
            assert e in listed + [d];
          }
        }
        displaced := SomeDisplaced(c, p, left - {m}, listed + [d]);
      }
    }
  }

  lemma {:induction false} LeastOf(c: Claims, p: Proposal, among: set<MachineId>, m: MachineId)
    returns (least: MachineId)
    requires m in among && forall x | x in among :: x in c
    ensures least in among && c[least].need == c[m].need
    ensures forall x | x in among && c[x].need == c[m].need :: c[least].retriesLeft <= c[x].retriesLeft
    decreases among
  {
    var rest := set x | x in among && c[x].need == c[m].need && c[x].retriesLeft < c[m].retriesLeft;
    if rest == {} {
      least := m;
      forall x | x in among && c[x].need == c[m].need
        ensures c[least].retriesLeft <= c[x].retriesLeft
      {
        assert x !in rest;
      }
    } else {
      var y :| y in rest;
      assert m !in rest;
      least := LeastOf(c, p, rest, y);
      forall x | x in among && c[x].need == c[m].need
        ensures c[least].retriesLeft <= c[x].retriesLeft
      {
        assert x !in rest ==> c[x].retriesLeft >= c[m].retriesLeft;
      }
    }
  }

  lemma WorkerMoves(env: Env, c0: Claims, s: CycleState, w: nat) returns (mv: Move)
    requires Inv(env, c0, s) && w < |s.workers| && s.workers[w].Running?
    ensures Enabled(env, s, mv)
  {
    var r := s.workers[w];
    assert r in s.workers;
    match r.phase
    case Top => mv := Look(w);
    case Searching => mv := Search(w, [], BucketKey(r.st, env.needs[r.need].profile, "", ""));
    case Pass1(_, _, _) => mv := Scan(w);
    case Pass2(_, _, _) => mv := Scan(w);
    case Check2(_, _, _) => mv := Scan(w);
    case Chosen(_, _) => mv := Observe(w);
    case Observed(_, _, _) =>
      var p := ProposalOf(env, r);
      if Accepts(s.claims, SeqAt(s, p.bucket), p) {
        var displaced := SomeDisplaced(s.claims, p, Evicted(s.claims, p), []);
        mv := Propose(w, displaced);
      } else {
        mv := Propose(w, []);
      }
    case Pushing(_, _) => mv := Push(w);
  }

  /** The workers never block: short of the barrier some move is open, so with the bound
      above every run can be, and must be, driven to the barrier. */
  lemma Progress(env: Env, s: CycleState, moves: seq<Move>) returns (mv: Move)
    requires Starts(env, s) && Legal(env, s, moves) && s.workers != []
    requires !AtBarrier(After(env, s, moves))
    ensures Enabled(env, After(env, s, moves), mv)
  {
    StartsInv(env, s);
    RunKeeps(env, s.claims, s, moves);
    WorkersStay(env, s, moves);
    var e := After(env, s, moves);
    if w :| 0 <= w < |e.workers| && e.workers[w].Running? {
      mv := WorkerMoves(env, s.claims, e, w);
    } else {
      assert e.workers[0].Waiting?;
      mv := Pull(0, 0);
    }
  }

  lemma {:induction false} WorkersStay(env: Env, s: CycleState, moves: seq<Move>)
    requires Legal(env, s, moves)
    ensures |After(env, s, moves).workers| == |s.workers|
    decreases |moves|
  {
    if moves != [] {
      OthersStay(env, s, moves[0]);
      WorkersStay(env, Apply(env, s, moves[0]), moves[1..]);
    }
  }
}
