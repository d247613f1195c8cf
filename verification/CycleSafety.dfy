/** What every move of the cycle keeps: the ledger only advances, pre-pass claims are
    untouchable, a Same Need stays in its domain and a parked one acquires nothing. */
module CycleSafety {
  import opened Resources
  import opened Fleet
  import opened Views
  import opened Ledger
  import opened Cycle

  predicate QueuedOK(env: Env, q: QueuedNeed) {
    q.need < |env.needs| && 0 < q.retriesLeft <= env.retries
  }

  predicate OutOK(env: Env, r: Worker, out: seq<MachineId>)
    requires r.Running? && r.need < |env.needs|
  {
    forall id | id in out :: OfferableId(env, r.need, r.st, id)
  }

  predicate WorkerOK(env: Env, r: Worker) {
    r.Running? ==>
      && r.need < |env.needs| && r.retries <= env.retries
      && (r.st == Idle || r.st == Speculative)
      && match r.phase
         case Top => true
         case Searching => r.retries > 0 && !Plain(env.needs[r.need])
         case Pass1(i, out, _) => Scanning(env, r, i, out)
         case Pass2(i, out, _) => Scanning(env, r, i, out)
         case Check2(i, out, _) => Scanning(env, r, i, out) && i < |PoolFor(env, r.need, r.st)|
         case Chosen(out, _) => r.retries > 0 && OutOK(env, r, out)
         case Observed(out, _, _) => r.retries > 0 && out != [] && OutOK(env, r, out)
         case Pushing(todo, _) =>
           r.retries > 0 && forall d | d in todo :: d.need < |env.needs| && d.retriesLeft < env.retries
  }

  predicate Scanning(env: Env, r: Worker, i: nat, out: seq<MachineId>)
    requires r.Running? && r.need < |env.needs|
  {
    r.retries > 0 && Plain(env.needs[r.need]) && i <= |PoolFor(env, r.need, r.st)| && OutOK(env, r, out)
  }

  /** A claim the workers made: an Idle or Speculative machine its Need may be offered. */
  predicate Earned(env: Env, c: Claims, id: MachineId)
    requires id in c
  {
    c[id].need < |env.needs| &&
    (OfferableId(env, c[id].need, Idle, id) || OfferableId(env, c[id].need, Speculative, id))
  }

  /** The claims the pre-pass can make: never on an Idle or Speculative machine. */
  predicate BoundOnly(env: Env, c: Claims) {
    forall id | id in c ::
      var m := ById(env.machines, id);
      m.Some? && m.value.state != Idle && m.value.state != Speculative
  }

  ghost predicate Inv(env: Env, c0: Claims, s: CycleState) {
    && Unique(env.machines)
    && ClaimsOK(env, s.claims)
    && (forall q | q in s.queue :: QueuedOK(env, q))
    && (forall w | w in s.workers :: WorkerOK(env, w))
    && Advances(c0, s.claims)
    && (forall id | id in s.claims :: (id in c0 && s.claims[id] == c0[id]) || Earned(env, s.claims, id))
  }

  lemma StartsInv(env: Env, s: CycleState)
    requires Starts(env, s)
    ensures Inv(env, s.claims, s)
  {
  }

  lemma PoolMachine(env: Env, n: nat, st: State, i: nat)
    requires Unique(env.machines) && n < |env.needs| && i < |PoolFor(env, n, st)|
    ensures PoolFor(env, n, st)[i].state == st && PoolFor(env, n, st)[i] in env.machines
    ensures ById(env.machines, PoolFor(env, n, st)[i].id) == Some(PoolFor(env, n, st)[i])
  {
    var m := PoolFor(env, n, st)[i];
    assert m in PoolFor(env, n, st);
    PoolIn(env.machines, st, env.needs[n].profile, m);
    ByIdIn(env.machines, m);
  }

  /** A machine the walk keeps is one its Need may be offered. */
  lemma KeepOK(env: Env, r: Worker, i: nat, out: seq<MachineId>, rem: ResVec, firstPass: bool)
    requires Unique(env.machines) && r.Running? && WorkerOK(env, r) && Scanning(env, r, i, out)
    requires i < |PoolFor(env, r.need, r.st)| && Fits(env.needs[r.need], PoolFor(env, r.need, r.st)[i])
    ensures WorkerOK(env, r.(phase := Keep(env, r, PoolFor(env, r.need, r.st)[i], out, rem, firstPass, i)))
  {
    var m := PoolFor(env, r.need, r.st)[i];
    PoolMachine(env, r.need, r.st, i);
    assert OfferableId(env, r.need, r.st, m.id);
    assert OutOK(env, r, out + [m.id]);
    var r' := r.(phase := Keep(env, r, m, out, rem, firstPass, i));
    assert OutOK(env, r', out + [m.id]);
    assert PoolFor(env, r'.need, r'.st) == PoolFor(env, r.need, r.st);
  }

  lemma ScanOK(env: Env, c: Claims, r: Worker)
    requires Unique(env.machines) && r.Running? && WorkerOK(env, r)
    requires r.phase.Pass1? || r.phase.Pass2? || r.phase.Check2?
    ensures WorkerOK(env, r.(phase := AfterScan(env, c, r)))
  {
    var pool := PoolFor(env, r.need, r.st);
    var i, out := r.phase.i, r.phase.out;
    var next := AfterScan(env, c, r);
    var r' := r.(phase := next);
    assert PoolFor(env, r'.need, r'.st) == pool;
    if i < |pool| && Fits(env.needs[r.need], pool[i]) {
      KeepOK(env, r, i, out, r.phase.rem, r.phase.Pass1?);
    }
    assert OutOK(env, r', out) by {
      assert OutOK(env, r, out);
    }
  }

  lemma SetWorkerOK(env: Env, s: CycleState, w: nat, r: Worker)
    requires w < |s.workers| && WorkerOK(env, r)
    requires forall x | x in s.workers :: WorkerOK(env, x)
    ensures forall x | x in SetWorker(s, w, r).workers :: WorkerOK(env, x)
  {
  }

  lemma DisplacedOK(env: Env, c: Claims, p: Proposal, displaced: seq<QueuedNeed>)
    requires ClaimsOK(env, c) && IsDisplaced(c, p, displaced)
    ensures forall d | d in displaced :: d.need < |env.needs| && d.retriesLeft < env.retries
  {
    forall d | d in displaced
      ensures d.need < |env.needs| && d.retriesLeft < env.retries
    {
      assert LeastBudget(c, p, d);
    }
  }

  lemma CommitOK(env: Env, s: CycleState, w: nat)
    requires ClaimsOK(env, s.claims) && Runs(env, s, w) && s.workers[w].phase.Observed?
    requires WorkerOK(env, s.workers[w])
    ensures ClaimsOK(env, Commit(s.claims, ProposalOf(env, s.workers[w])))
  {
  }

  lemma CommitEarned(env: Env, s: CycleState, w: nat, id: MachineId)
    requires Runs(env, s, w) && s.workers[w].phase.Observed? && WorkerOK(env, s.workers[w])
    requires id in Taken(s.claims, ProposalOf(env, s.workers[w]))
    ensures Earned(env, Commit(s.claims, ProposalOf(env, s.workers[w])), id)
  {
    var r := s.workers[w];
    assert id in r.phase.out;
    assert OfferableId(env, r.need, r.st, id);
  }

  /** A commit takes only offered machines, so the pre-pass's claims stay. */
  lemma CommitHolders(env: Env, c0: Claims, s: CycleState, w: nat)
    requires Inv(env, c0, s) && Runs(env, s, w) && s.workers[w].phase.Observed?
    ensures var c := Commit(s.claims, ProposalOf(env, s.workers[w]));
            forall id | id in c :: (id in c0 && c[id] == c0[id]) || Earned(env, c, id)
  {
    var p := ProposalOf(env, s.workers[w]);
    var c := Commit(s.claims, p);
    assert s.workers[w] in s.workers;
    forall id | id in c
      ensures (id in c0 && c[id] == c0[id]) || Earned(env, c, id)
    {
      if id in Taken(s.claims, p) {
        CommitEarned(env, s, w, id);
      } else {
        assert c[id] == s.claims[id];
      }
    }
  }

  lemma ProposeKeeps(env: Env, c0: Claims, s: CycleState, w: nat, displaced: seq<QueuedNeed>)
    requires Inv(env, c0, s) && Enabled(env, s, Propose(w, displaced))
    ensures Inv(env, c0, AfterPropose(env, s, w, displaced))
  {
    var r := s.workers[w];
    assert r in s.workers;
    var p := ProposalOf(env, r);
    if Accepts(s.claims, SeqAt(s, p.bucket), p) {
      DisplacedOK(env, s.claims, p, displaced);
      SetWorkerOK(env, s, w, r.(phase := Pushing(displaced, true)));
      CommitOK(env, s, w);
      CommitHolders(env, c0, s, w);
      CommitAdvances(s.claims, p);
      AdvancesTransitive(c0, s.claims, Commit(s.claims, p));
    } else {
      SetWorkerOK(env, s, w, r.(phase := Pushing([], false)));
    }
  }

  lemma PushKeeps(env: Env, c0: Claims, s: CycleState, w: nat)
    requires Inv(env, c0, s) && Enabled(env, s, Push(w))
    ensures Inv(env, c0, AfterPush(env, s, w))
  {
    var r := s.workers[w];
    assert r in s.workers;
    if r.phase.todo != [] {
      SetWorkerOK(env, s, w, r.(phase := Pushing(r.phase.todo[1..], r.phase.committed)));
      assert r.phase.todo[0] in r.phase.todo;
    } else if !r.phase.committed {
      SetWorkerOK(env, s, w, r.(retries := r.retries - 1, phase := Top));
    } else {
      PhaseKeeps(env, c0, s, w, Top);
      LeaveKeeps(env, c0, s, w);
    }
  }

  lemma LeaveKeeps(env: Env, c0: Claims, s: CycleState, w: nat)
    requires Inv(env, c0, s) && Runs(env, s, w)
    ensures Inv(env, c0, LeaveState(s, w)) && Inv(env, c0, EndRun(s, w))
  {
    var r := s.workers[w];
    assert r in s.workers;
    SetWorkerOK(env, s, w, Waiting);
    SetWorkerOK(env, s, w, r.(st := Speculative, phase := Top));
  }

  lemma PhaseKeeps(env: Env, c0: Claims, s: CycleState, w: nat, next: Phase)
    requires Inv(env, c0, s) && Runs(env, s, w) && WorkerOK(env, s.workers[w].(phase := next))
    ensures Inv(env, c0, SetWorker(s, w, s.workers[w].(phase := next)))
  {
    SetWorkerOK(env, s, w, s.workers[w].(phase := next));
  }

  lemma WalkKeeps(env: Env, c0: Claims, s: CycleState, mv: Move)
    requires Inv(env, c0, s) && Enabled(env, s, mv)
    requires mv.Look? || mv.Search? || mv.Scan? || mv.Observe?
    ensures Inv(env, c0, Apply(env, s, mv))
  {
    var r := s.workers[mv.w];
    assert r in s.workers;
    LeaveKeeps(env, c0, s, mv.w);
    match mv
    case Look(w) =>
      if r.retries > 0 {
        if Plain(env.needs[r.need]) {
          PhaseKeeps(env, c0, s, w, Pass1(0, [], Deficit(env, s.claims, r.need)));
        } else {
          PhaseKeeps(env, c0, s, w, Searching);
        }
      }
    case Search(w, found, bucket) => PhaseKeeps(env, c0, s, w, Chosen(found, bucket));
    case Scan(w) =>
      ScanOK(env, s.claims, r);
      PhaseKeeps(env, c0, s, w, AfterScan(env, s.claims, r));
    case Observe(w) =>
      if r.phase.out != [] {
        PhaseKeeps(env, c0, s, w, Observed(r.phase.out, r.phase.bucket, SeqAt(s, r.phase.bucket)));
      }
  }

  /** Every move keeps the invariant. */
  lemma MoveKeeps(env: Env, c0: Claims, s: CycleState, mv: Move)
    requires Inv(env, c0, s) && Enabled(env, s, mv)
    ensures Inv(env, c0, Apply(env, s, mv))
  {
    match mv
    case Pull(w, at) =>
      var q := s.queue[at];
      assert q in s.queue;
      SetWorkerOK(env, s, w, Running(q.need, q.retriesLeft, Idle, Top));
    case Propose(w, displaced) => ProposeKeeps(env, c0, s, w, displaced);
    case Push(w) => PushKeeps(env, c0, s, w);
    case _ => WalkKeeps(env, c0, s, mv);
  }

  lemma {:induction false} RunKeeps(env: Env, c0: Claims, s: CycleState, moves: seq<Move>)
    requires Inv(env, c0, s) && Legal(env, s, moves)
    ensures Inv(env, c0, After(env, s, moves))
    decreases |moves|
  {
    if moves != [] {
      MoveKeeps(env, c0, s, moves[0]);
      RunKeeps(env, c0, Apply(env, s, moves[0]), moves[1..]);
    }
  }

  /** Claim ledger safety over every run: from the pre-pass's claims, no claim is ever
      dropped, holders change only to strictly higher precedence, a machine the
      pre-pass credited keeps its holder, and every other claim is on an Idle or
      Speculative machine its Need may take. */
  lemma LedgerSafety(env: Env, s: CycleState, moves: seq<Move>)
    requires Starts(env, s) && BoundOnly(env, s.claims) && Legal(env, s, moves)
    ensures var c := After(env, s, moves).claims;
            && Advances(s.claims, c)
            && (forall id | id in s.claims :: id in c && c[id] == s.claims[id])
            && (forall id | id in c && id !in s.claims :: Earned(env, c, id))
  {
    StartsInv(env, s);
    RunKeeps(env, s.claims, s, moves);
  }

  /** The pre-pass credits a Same Need only inside its recorded domain. */
  predicate InDomain(env: Env, c: Claims) {
    forall id | id in c && c[id].need < |env.needs| :: Colocated(env, c[id].need, id)
  }

  predicate Colocated(env: Env, n: nat, id: MachineId)
    requires n < |env.needs|
  {
    var key := SameKey(env.needs[n].profile);
    var m := ById(env.machines, id);
    key.Some? && DomainOf(env, n) != "" ==> m.Some? && Lookup(key.value, m.value) == Some(DomainOf(env, n))
  }

  /** Co-location and parking, in every reachable state: all machines a Same Need holds
      carry its recorded domain, and a parked one holds no Idle or Speculative machine. */
  lemma GangSafety(env: Env, s: CycleState, moves: seq<Move>, n: nat, id: MachineId)
    requires Starts(env, s) && BoundOnly(env, s.claims) && InDomain(env, s.claims) && Legal(env, s, moves)
    requires n < |env.needs| && SameKey(env.needs[n].profile).Some?
    requires id in HeldBy(After(env, s, moves).claims, n)
    ensures Colocated(env, n, id)
    ensures env.needs[n].parked ==>
              var m := ById(env.machines, id); m.Some? && m.value.state != Idle && m.value.state != Speculative
  {
    LedgerSafety(env, s, moves);
  }
}
