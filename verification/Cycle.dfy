/** The allocation cycle as a step system: any number of workers pull Needs from a
    queue and race proposals to the broker. One move is one atomic action, that is one
    acquisition of the state lock or one channel operation, so every interleaving of
    the workers is a sequence of moves. */
module Cycle {
  import opened Resources
  import opened Fleet
  import opened Views
  import opened Ledger

  /** What stays fixed during a cycle: the snapshot, the demand, the Same-domains the
      pre-pass recorded, and the retry budget. */
  datatype Env = Env(machines: seq<Machine>, needs: seq<Need>, domain: map<nat, string>, retries: nat)

  datatype Phase =
    | Top
    | Searching
    | Pass1(i: nat, out: seq<MachineId>, rem: ResVec)
    | Pass2(i: nat, out: seq<MachineId>, rem: ResVec)
    | Check2(i: nat, out: seq<MachineId>, rem: ResVec)
    | Chosen(out: seq<MachineId>, bucket: BucketKey)
    | Observed(out: seq<MachineId>, bucket: BucketKey, seqno: nat)
    | Pushing(todo: seq<QueuedNeed>, committed: bool)

  datatype Worker = Waiting | Running(need: nat, retries: int, st: State, phase: Phase)

  /** The last three fields only observe; no move reads them. `settled`: a run of the
      Need ended with budget left and it has lost no claim since. `exhausted`: a run
      ended with the budget spent, or a lost claim left none to re-queue with.
      `evictions`: how many machines changed hands by displacement. */
  datatype CycleState = CycleState(claims: Claims, seqs: map<BucketKey, nat>, queue: seq<QueuedNeed>,
                                   workers: seq<Worker>, settled: set<nat>, exhausted: set<nat>, evictions: nat)

  datatype Move =
    | Pull(w: nat, at: nat)
    | Look(w: nat)
    | Search(w: nat, found: seq<MachineId>, bucket: BucketKey)
    | Scan(w: nat)
    | Observe(w: nat)
    | Propose(w: nat, displaced: seq<QueuedNeed>)
    | Push(w: nat)

  function ById(ms: seq<Machine>, id: MachineId): Option<Machine> {
    if ms == [] then None else if ms[0].id == id then Some(ms[0]) else ById(ms[1..], id)
  }

  /** Total allocatable of the listed machines that the snapshot knows. */
  function HeldAlloc(ms: seq<Machine>, ids: set<MachineId>): ResVec {
    if ms == [] then map[]
    else if ms[0].id in ids then Add(Alloc(ms[0]), HeldAlloc(ms[1..], ids))
    else HeldAlloc(ms[1..], ids)
  }

  function Deficit(env: Env, c: Claims, n: nat): ResVec
    requires n < |env.needs|
  {
    Sub(env.needs[n].aggregate, HeldAlloc(env.machines, HeldBy(c, n)))
  }

  function PoolFor(env: Env, n: nat, st: State): seq<Machine>
    requires n < |env.needs|
  {
    Pool(env.machines, st, env.needs[n].profile)
  }

  function DomainOf(env: Env, n: nat): string {
    if n in env.domain then env.domain[n] else ""
  }

  /** Gang-scheduled Needs commit all or nothing, everything else incrementally. */
  function ModeFor(n: Need): Mode {
    if SameKey(n.profile).None? || Covers(n.minUnit, n.aggregate) then Incremental else AllOrNothing
  }

  /** What the candidate search may put forward for a Need: a machine of the state
      that fits, inside the recorded domain of a Same Need, and nothing at all for a
      parked one. */
  predicate Offerable(env: Env, n: nat, m: Machine)
    requires n < |env.needs|
  {
    var need := env.needs[n];
    && (m.state == Idle || m.state == Speculative)
    && Fits(need, m)
    && (SameKey(need.profile).Some? ==>
          !need.parked && (DomainOf(env, n) != "" ==> Lookup(SameKey(need.profile).value, m) == Some(DomainOf(env, n))))
  }

  predicate OfferableId(env: Env, n: nat, st: State, id: MachineId)
    requires n < |env.needs|
  {
    var m := ById(env.machines, id);
    m.Some? && m.value.state == st && Offerable(env, n, m.value)
  }

  function SeqAt(s: CycleState, b: BucketKey): nat {
    if b in s.seqs then s.seqs[b] else 0
  }

  function ProposalOf(env: Env, r: Worker): Proposal
    requires r.Running? && r.phase.Observed? && r.need < |env.needs|
  {
    Proposal(r.need, r.phase.bucket, r.phase.out, r.phase.seqno, PrecedenceOf(env.needs[r.need].profile),
             ModeFor(env.needs[r.need]), r.retries)
  }

  predicate Runs(env: Env, s: CycleState, w: nat) {
    w < |s.workers| && s.workers[w].Running? && s.workers[w].need < |env.needs|
  }

  ghost predicate Enabled(env: Env, s: CycleState, mv: Move) {
    match mv
    case Pull(w, at) => w < |s.workers| && s.workers[w].Waiting? && at < |s.queue|
    case Look(w) => Runs(env, s, w) && s.workers[w].phase.Top?
    case Search(w, found, bucket) =>
      Runs(env, s, w) && s.workers[w].phase.Searching? &&
      forall id | id in found :: OfferableId(env, s.workers[w].need, s.workers[w].st, id)
    case Scan(w) =>
      Runs(env, s, w) &&
      (s.workers[w].phase.Pass1? || s.workers[w].phase.Pass2? ||
       (s.workers[w].phase.Check2? && s.workers[w].phase.i < |PoolFor(env, s.workers[w].need, s.workers[w].st)|))
    case Observe(w) => Runs(env, s, w) && s.workers[w].phase.Chosen?
    case Propose(w, displaced) =>
      Runs(env, s, w) && s.workers[w].phase.Observed? &&
      var p := ProposalOf(env, s.workers[w]);
      if Accepts(s.claims, SeqAt(s, p.bucket), p) then IsDisplaced(s.claims, p, displaced) else displaced == []
    case Push(w) => Runs(env, s, w) && s.workers[w].phase.Pushing?
  }

  function SetWorker(s: CycleState, w: nat, r: Worker): CycleState
    requires w < |s.workers|
  {
    s.(workers := s.workers[w := r])
  }

  function EndRun(s: CycleState, w: nat): CycleState
    requires w < |s.workers| && s.workers[w].Running?
  {
    var r := s.workers[w];
    SetWorker(s, w, Waiting).(
      settled := if r.retries > 0 then s.settled + {r.need} else s.settled,
      exhausted := if r.retries > 0 then s.exhausted else s.exhausted + {r.need})
  }

  /** Leaving the retry loop of one machine state: Idle first, then Speculative. */
  function LeaveState(s: CycleState, w: nat): CycleState
    requires w < |s.workers| && s.workers[w].Running?
  {
    var r := s.workers[w];
    if r.st == Idle then SetWorker(s, w, r.(st := Speculative, phase := Top)) else EndRun(s, w)
  }

  function AfterLook(env: Env, s: CycleState, w: nat): CycleState
    requires Runs(env, s, w)
  {
    var r := s.workers[w];
    var deficit := Deficit(env, s.claims, r.need);
    if r.retries <= 0 then LeaveState(s, w)
    else if IsZero(deficit) then EndRun(s, w)
    else if Plain(env.needs[r.need]) then SetWorker(s, w, r.(phase := Pass1(0, [], deficit)))
    else SetWorker(s, w, r.(phase := Searching))
  }

  function PlainBucket(env: Env, r: Worker): BucketKey
    requires r.Running? && r.need < |env.needs|
  {
    BucketKey(r.st, env.needs[r.need].profile, "", "")
  }

  /** Appends a machine to the candidates; the scan stops once they cover. */
  function Keep(env: Env, r: Worker, m: Machine, out: seq<MachineId>, rem: ResVec, firstPass: bool, i: nat): Phase
    requires r.Running? && r.need < |env.needs|
  {
    var left := Sub(rem, Alloc(m));
    if IsZero(left) then Chosen(out + [m.id], PlainBucket(env, r))
    else if firstPass then Pass1(i + 1, out + [m.id], left)
    else Pass2(i + 1, out + [m.id], left)
  }

  /** One read of the two-pass walk: unclaimed machines first, then claimed ones whose
      incumbent could be displaced. */
  function AfterScan(env: Env, c: Claims, r: Worker): Phase
    requires r.Running? && r.need < |env.needs|
    requires r.phase.Pass1? || r.phase.Pass2? || r.phase.Check2?
    requires r.phase.Check2? ==> r.phase.i < |PoolFor(env, r.need, r.st)|
  {
    var pool := PoolFor(env, r.need, r.st);
    var n := env.needs[r.need];
    match r.phase
    case Pass1(i, out, rem) =>
      if i >= |pool| then Pass2(0, out, rem)
      else if pool[i].id in c || !Fits(n, pool[i]) then Pass1(i + 1, out, rem)
      else Keep(env, r, pool[i], out, rem, true, i)
    case Pass2(i, out, rem) =>
      if i >= |pool| then Chosen(out, PlainBucket(env, r))
      else if pool[i].id !in c then Pass2(i + 1, out, rem)
      else Check2(i, out, rem)
    case Check2(i, out, rem) =>
      if !Takeable(c, pool[i].id, PrecedenceOf(n.profile)) || !Fits(n, pool[i]) then Pass2(i + 1, out, rem)
      else Keep(env, r, pool[i], out, rem, false, i)
  }

  function CountIn(ms: seq<Machine>, ids: set<MachineId>): nat {
    if ms == [] then 0 else (if ms[0].id in ids then 1 else 0) + CountIn(ms[1..], ids)
  }

  function AfterPropose(env: Env, s: CycleState, w: nat, displaced: seq<QueuedNeed>): CycleState
    requires Runs(env, s, w) && s.workers[w].phase.Observed?
  {
    var r := s.workers[w];
    var p := ProposalOf(env, r);
    if Accepts(s.claims, SeqAt(s, p.bucket), p) then
      var losers := set m | m in Evicted(s.claims, p) :: s.claims[m].need;
      SetWorker(s, w, r.(phase := Pushing(displaced, true)))
        .(claims := Commit(s.claims, p), seqs := s.seqs[p.bucket := SeqAt(s, p.bucket) + 1],
          settled := s.settled - losers,
          evictions := s.evictions + CountIn(env.machines, Evicted(s.claims, p)))
    else
      SetWorker(s, w, r.(phase := Pushing([], false)))
  }

  /** Re-queues one evicted Need if it has budget; then back to the loop. A conflict
      costs one retry, and a topology-constrained Need tries each state only once. */
  function AfterPush(env: Env, s: CycleState, w: nat): CycleState
    requires Runs(env, s, w) && s.workers[w].phase.Pushing?
  {
    var r := s.workers[w];
    if r.phase.todo != [] then
      var d := r.phase.todo[0];
      SetWorker(s, w, r.(phase := Pushing(r.phase.todo[1..], r.phase.committed)))
        .(queue := if d.retriesLeft > 0 then s.queue + [d] else s.queue,
          exhausted := if d.retriesLeft > 0 then s.exhausted else s.exhausted + {d.need})
    else if !r.phase.committed then
      SetWorker(s, w, r.(retries := r.retries - 1, phase := Top))
    else if Plain(env.needs[r.need]) then
      SetWorker(s, w, r.(phase := Top))
    else
      LeaveState(s, w)
  }

  function Apply(env: Env, s: CycleState, mv: Move): CycleState
    requires Enabled(env, s, mv)
  {
    match mv
    case Pull(w, at) =>
      var q := s.queue[at];
      SetWorker(s, w, Running(q.need, q.retriesLeft, Idle, Top)).(queue := s.queue[..at] + s.queue[at + 1..])
    case Look(w) => AfterLook(env, s, w)
    case Search(w, found, bucket) => SetWorker(s, w, s.workers[w].(phase := Chosen(found, bucket)))
    case Scan(w) => SetWorker(s, w, s.workers[w].(phase := AfterScan(env, s.claims, s.workers[w])))
    case Observe(w) =>
      var r := s.workers[w];
      if r.phase.out == [] then LeaveState(s, w)
      else SetWorker(s, w, r.(phase := Observed(r.phase.out, r.phase.bucket, SeqAt(s, r.phase.bucket))))
    case Propose(w, displaced) => AfterPropose(env, s, w, displaced)
    case Push(w) => AfterPush(env, s, w)
  }

  /** Only a commit touches the ledger. */
  lemma QuietMove(env: Env, s: CycleState, mv: Move)
    requires Enabled(env, s, mv) && !mv.Propose?
    ensures Apply(env, s, mv).claims == s.claims && Apply(env, s, mv).evictions == s.evictions
  {
  }

  ghost predicate Legal(env: Env, s: CycleState, moves: seq<Move>)
    decreases |moves|
  {
    moves != [] ==> Enabled(env, s, moves[0]) && Legal(env, Apply(env, s, moves[0]), moves[1..])
  }

  ghost function After(env: Env, s: CycleState, moves: seq<Move>): CycleState
    requires Legal(env, s, moves)
    decreases |moves|
  {
    if moves == [] then s else After(env, Apply(env, s, moves[0]), moves[1..])
  }

  /** All work is done: the queue is empty and every worker waits. */
  predicate AtBarrier(s: CycleState) {
    s.queue == [] && forall w | w in s.workers :: w.Waiting?
  }

  /** The state the workers start from: the pre-pass's claims, and one entry for each
      Need they leave short. */
  predicate Starts(env: Env, s: CycleState) {
    && Unique(env.machines)
    && env.retries > 0
    && ClaimsOK(env, s.claims)
    && s.seqs == map[] && s.settled == {} && s.exhausted == {} && s.evictions == 0
    && (forall w | w in s.workers :: w.Waiting?)
    && (forall q | q in s.queue :: q.need < |env.needs| && q.retriesLeft == env.retries)
    && (forall n | 0 <= n < |env.needs| ::
          IsZero(Deficit(env, s.claims, n)) || QueuedNeed(n, env.retries) in s.queue)
  }

  predicate ClaimsOK(env: Env, c: Claims) {
    forall m | m in c ::
      c[m].need < |env.needs| && c[m].retriesLeft <= env.retries &&
      c[m].precedence == PrecedenceOf(env.needs[c[m].need].profile)
  }

  lemma ByIdIn(ms: seq<Machine>, m: Machine)
    requires Unique(ms) && m in ms
    ensures ById(ms, m.id) == Some(m)
  {
    if ms[0] != m {
      assert m in ms[1..];
      var k :| 0 <= k < |ms| && ms[k] == m;
      assert ms[0].id != ms[k].id;
      ByIdIn(ms[1..], m);
    }
  }

  lemma ByIdFound(ms: seq<Machine>, id: MachineId)
    ensures ById(ms, id).Some? ==> ById(ms, id).value in ms && ById(ms, id).value.id == id
    ensures ById(ms, id).None? ==> forall m | m in ms :: m.id != id
  {
    if ms != [] {
      ByIdFound(ms[1..], id);
    }
  }

  /** Holding more machines never raises a deficit. */
  lemma HeldMore(ms: seq<Machine>, small: set<MachineId>, big: set<MachineId>, d: string)
    requires small <= big
    ensures Qty(HeldAlloc(ms, small), d) <= Qty(HeldAlloc(ms, big), d)
  {
    if ms != [] {
      HeldMore(ms[1..], small, big, d);
    }
  }

  lemma DeficitStaysZero(env: Env, c: Claims, d: Claims, n: nat)
    requires n < |env.needs|
    requires HeldBy(c, n) <= HeldBy(d, n)
    requires IsZero(Deficit(env, c, n))
    ensures IsZero(Deficit(env, d, n))
  {
    var a, b := HeldAlloc(env.machines, HeldBy(c, n)), HeldAlloc(env.machines, HeldBy(d, n));
    ResidualZero(env.needs[n].aggregate, a);
    ResidualZero(env.needs[n].aggregate, b);
    forall k
      ensures Qty(a, k) <= Qty(b, k)
    {
      HeldMore(env.machines, HeldBy(c, n), HeldBy(d, n), k);
    }
    CoversMore(b, a, env.needs[n].aggregate);
  }
}
