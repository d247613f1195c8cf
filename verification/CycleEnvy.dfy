/** Priority on conflict: what a short Need can still envy when the workers are done. */
module CycleEnvy {
  import opened Resources
  import opened Fleet
  import opened Views
  import opened Ledger
  import opened Cycle
  import opened CycleSafety
  import opened CycleLaws

  /** The first `k` pool machines that fit the Need are all claimed. */
  predicate Seen(env: Env, c: Claims, n: nat, st: State, k: nat)
    requires n < |env.needs|
  {
    var pool := PoolFor(env, n, st);
    forall j | 0 <= j < k && j < |pool| && Fits(env.needs[n], pool[j]) :: pool[j].id in c
  }

  /** ... and none of their holders can be displaced by the Need. */
  predicate Blocked(env: Env, c: Claims, n: nat, st: State, k: nat)
    requires n < |env.needs|
  {
    var pool := PoolFor(env, n, st);
    forall j | 0 <= j < k && j < |pool| && Fits(env.needs[n], pool[j]) ::
      pool[j].id in c && !Takeable(c, pool[j].id, PrecedenceOf(env.needs[n].profile))
  }

  predicate AllBlocked(env: Env, c: Claims, n: nat, st: State)
    requires n < |env.needs|
  {
    Blocked(env, c, n, st, |PoolFor(env, n, st)|)
  }

  lemma SeenStable(env: Env, c: Claims, d: Claims, n: nat, st: State, k: nat)
    requires n < |env.needs| && Advances(c, d)
    ensures Seen(env, c, n, st, k) ==> Seen(env, d, n, st, k)
    ensures Blocked(env, c, n, st, k) ==> Blocked(env, d, n, st, k)
  {
    var pool, prec := PoolFor(env, n, st), PrecedenceOf(env.needs[n].profile);
    if Blocked(env, c, n, st, k) {
      forall j | 0 <= j < k && j < |pool| && Fits(env.needs[n], pool[j])
        ensures pool[j].id in d && !Takeable(d, pool[j].id, prec)
      {
        BlockedForever(c, d, pool[j].id, prec);
      }
    }
  }

  /** What a worker on a plain Need has established by having found no candidate. */
  predicate ScanFacts(env: Env, c: Claims, r: Worker) {
    r.Running? && r.need < |env.needs| && Plain(env.needs[r.need]) ==>
      && (r.st == Speculative && r.retries > 0 ==> AllBlocked(env, c, r.need, Idle))
      && match r.phase
         case Pass1(i, out, _) => out == [] ==> Seen(env, c, r.need, r.st, i)
         case Pass2(i, out, _) =>
           out == [] ==> Seen(env, c, r.need, r.st, |PoolFor(env, r.need, r.st)|) && Blocked(env, c, r.need, r.st, i)
         case Check2(i, out, _) =>
           && (i < |PoolFor(env, r.need, r.st)| ==> PoolFor(env, r.need, r.st)[i].id in c)
           && (out == [] ==>
                 Seen(env, c, r.need, r.st, |PoolFor(env, r.need, r.st)|) && Blocked(env, c, r.need, r.st, i))
         case Chosen(out, _) => out == [] ==> AllBlocked(env, c, r.need, r.st)
         case _ => true
  }

  lemma ScanFactsStable(env: Env, c: Claims, d: Claims, r: Worker)
    requires Advances(c, d) && ScanFacts(env, c, r)
    ensures ScanFacts(env, d, r)
  {
    if r.Running? && r.need < |env.needs| {
      SeenStable(env, c, d, r.need, Idle, |PoolFor(env, r.need, Idle)|);
      SeenStable(env, c, d, r.need, r.st, |PoolFor(env, r.need, r.st)|);
      if r.phase.Pass1? || r.phase.Pass2? || r.phase.Check2? {
        SeenStable(env, c, d, r.need, r.st, r.phase.i);
      }
    }
  }

  /** Nothing left to envy: the Need is covered, or every machine of its pools that
      fits it is held at its own precedence or above. */
  predicate Content(env: Env, c: Claims, n: nat)
    requires n < |env.needs|
  {
    IsZero(Deficit(env, c, n)) || (AllBlocked(env, c, n, Idle) && AllBlocked(env, c, n, Speculative))
  }

  predicate SettledOK(env: Env, c: Claims, n: nat) {
    n < |env.needs| && (Plain(env.needs[n]) ==> Content(env, c, n))
  }

  /** The Need still has work in the system. */
  predicate Pending(s: CycleState, n: nat) {
    (exists q :: q in s.queue && q.need == n) || (exists r :: r in s.workers && Carries(r, n))
  }

  predicate Carries(r: Worker, n: nat) {
    r.Running? && (r.need == n || (r.phase.Pushing? && exists d :: d in r.phase.todo && d.need == n))
  }

  predicate Accounted(env: Env, s: CycleState, n: nat)
    requires n < |env.needs|
  {
    IsZero(Deficit(env, s.claims, n)) || n in s.settled || n in s.exhausted || Pending(s, n)
  }

  ghost predicate EnvyInv(env: Env, c0: Claims, s: CycleState) {
    && Inv(env, c0, s)
    && (forall r | r in s.workers :: ScanFacts(env, s.claims, r))
    && (forall n | n in s.settled :: SettledOK(env, s.claims, n))
    && (forall n | 0 <= n < |env.needs| :: Accounted(env, s, n))
  }

  lemma SeenNext(env: Env, c: Claims, n: nat, st: State, i: nat)
    requires n < |env.needs| && i < |PoolFor(env, n, st)|
    ensures var m := PoolFor(env, n, st)[i];
            && (Seen(env, c, n, st, i) && (Fits(env.needs[n], m) ==> m.id in c) ==> Seen(env, c, n, st, i + 1))
            && (Blocked(env, c, n, st, i)
                && (Fits(env.needs[n], m) ==> m.id in c && !Takeable(c, m.id, PrecedenceOf(env.needs[n].profile)))
                ==> Blocked(env, c, n, st, i + 1))
  {
  }

  lemma ScanStep(env: Env, c: Claims, r: Worker)
    requires r.Running? && WorkerOK(env, r) && ScanFacts(env, c, r)
    requires r.phase.Pass1? || r.phase.Pass2? || r.phase.Check2?
    ensures ScanFacts(env, c, r.(phase := AfterScan(env, c, r)))
  {
    var pool := PoolFor(env, r.need, r.st);
    var i := r.phase.i;
    if i < |pool| {
      SeenNext(env, c, r.need, r.st, i);
      if r.phase.Pass2? && pool[i].id !in c && r.phase.out == [] {
        assert Seen(env, c, r.need, r.st, |pool|);
        assert !Fits(env.needs[r.need], pool[i]);
      }
    }
  }

  lemma CarriedElsewhere(s: CycleState, w: nat, r: Worker, n: nat)
    requires w < |s.workers|
    requires Pending(s, n)
    ensures Pending(SetWorker(s, w, r), n) || Carries(s.workers[w], n)
    ensures Carries(r, n) ==> Pending(SetWorker(s, w, r), n)
  {
    var s' := SetWorker(s, w, r);
    assert s'.workers[w] in s'.workers;
    if exists x :: x in s.workers && Carries(x, n) {
      var k :| 0 <= k < |s.workers| && Carries(s.workers[k], n);
      assert k != w ==> s'.workers[k] in s'.workers;
    }
  }

  lemma CarriedHere(s: CycleState, w: nat, r: Worker, n: nat)
    requires w < |s.workers| && Carries(r, n)
    ensures Pending(SetWorker(s, w, r), n)
  {
    var s' := SetWorker(s, w, r);
    assert s'.workers[w] in s'.workers;
  }

  lemma PullAccounts(env: Env, s: CycleState, w: nat, at: nat, n: nat)
    requires n < |env.needs| && Accounted(env, s, n) && Enabled(env, s, Pull(w, at))
    ensures Accounted(env, Apply(env, s, Pull(w, at)), n)
  {
    if Pending(s, n) {
      var s' := Apply(env, s, Pull(w, at));
      var r := s'.workers[w];
      if Carries(r, n) {
        assert r in s'.workers;
      } else if exists q :: q in s.queue && q.need == n {
        var k :| 0 <= k < |s.queue| && s.queue[k].need == n;
        assert s'.queue[if k < at then k else k - 1] == s.queue[k];
      } else {
        CarriedElsewhere(s, w, r, n);
        var x :| x in SetWorker(s, w, r).workers && Carries(x, n);
        assert x in s'.workers;
      }
    }
  }

  lemma LeaveAccounts(env: Env, s: CycleState, w: nat, n: nat)
    requires n < |env.needs| && Accounted(env, s, n)
    requires Runs(env, s, w) && (s.workers[w].phase.Pushing? ==> s.workers[w].phase.todo == [])
    ensures Accounted(env, EndRun(s, w), n) && Accounted(env, LeaveState(s, w), n)
  {
    if Pending(s, n) {
      var r := s.workers[w];
      CarriedElsewhere(s, w, Waiting, n);
      CarriedElsewhere(s, w, r.(st := Speculative, phase := Top), n);
      if Pending(SetWorker(s, w, Waiting), n) {
        assert Pending(EndRun(s, w), n);
      }
    }
  }

  lemma StayAccounts(env: Env, s: CycleState, w: nat, r: Worker, n: nat)
    requires n < |env.needs| && Accounted(env, s, n)
    requires Runs(env, s, w) && r.Running? && r.need == s.workers[w].need
    requires s.workers[w].phase.Pushing? ==> s.workers[w].phase.todo == []
    ensures Accounted(env, SetWorker(s, w, r), n)
  {
    if Pending(s, n) {
      CarriedElsewhere(s, w, r, n);
    }
  }

  lemma PushAccounts(env: Env, s: CycleState, w: nat, n: nat)
    requires n < |env.needs| && Accounted(env, s, n) && Enabled(env, s, Push(w))
    ensures Accounted(env, AfterPush(env, s, w), n)
  {
    var r := s.workers[w];
    if r.phase.todo == [] {
      LeaveAccounts(env, s, w, n);
      StayAccounts(env, s, w, r.(retries := r.retries - 1, phase := Top), n);
      StayAccounts(env, s, w, r.(phase := Top), n);
    } else if Pending(s, n) {
      var d, rest := r.phase.todo[0], r.phase.todo[1..];
      var r' := r.(phase := Pushing(rest, r.phase.committed));
      var s' := AfterPush(env, s, w);
      CarriedElsewhere(s, w, r', n);
      if Pending(SetWorker(s, w, r'), n) {
        if exists q :: q in s.queue && q.need == n {
          var q :| q in s.queue && q.need == n;
          assert q in s'.queue;
        } else {
          var x :| x in SetWorker(s, w, r').workers && Carries(x, n);
          assert x in s'.workers;
        }
      } else {
        assert !Carries(r', n) by {
          if Carries(r', n) {
            CarriedHere(s, w, r', n);
          }
        }
        var e :| e in r.phase.todo && e.need == n;
        assert e != d ==> e in rest;
        assert d.retriesLeft > 0 ==> d in s'.queue;
      }
    }
  }

  lemma LoserAccounts(env: Env, s: CycleState, w: nat, displaced: seq<QueuedNeed>, n: nat)
    requires n < |env.needs| && Enabled(env, s, Propose(w, displaced))
    requires Accepts(s.claims, SeqAt(s, s.workers[w].phase.bucket), ProposalOf(env, s.workers[w]))
    requires exists m :: m in Evicted(s.claims, ProposalOf(env, s.workers[w])) && s.claims[m].need == n
    ensures Accounted(env, AfterPropose(env, s, w, displaced), n)
  {
    var p := ProposalOf(env, s.workers[w]);
    var s' := AfterPropose(env, s, w, displaced);
    var m :| m in Evicted(s.claims, p) && s.claims[m].need == n;
    var d :| d in displaced && d.need == n;
    assert s'.workers[w].phase.todo == displaced;
    assert Carries(s'.workers[w], n) && s'.workers[w] in s'.workers;
  }

  lemma KeeperAccounts(env: Env, s: CycleState, w: nat, displaced: seq<QueuedNeed>, n: nat)
    requires n < |env.needs| && Accounted(env, s, n) && Enabled(env, s, Propose(w, displaced))
    requires Accepts(s.claims, SeqAt(s, s.workers[w].phase.bucket), ProposalOf(env, s.workers[w]))
    requires forall m | m in Evicted(s.claims, ProposalOf(env, s.workers[w])) :: s.claims[m].need != n
    ensures Accounted(env, AfterPropose(env, s, w, displaced), n)
  {
    var r := s.workers[w];
    var p := ProposalOf(env, r);
    var s' := AfterPropose(env, s, w, displaced);
    var mid := SetWorker(s, w, r.(phase := Pushing(displaced, true)));
    CommitAdvances(s.claims, p);
    if IsZero(Deficit(env, s.claims, n)) {
      DeficitStaysZero(env, s.claims, s'.claims, n);
    } else if Pending(s, n) {
      CarriedElsewhere(s, w, mid.workers[w], n);
      assert s'.workers == mid.workers && s'.queue == mid.queue;
      assert Pending(mid, n);
      assert Pending(s', n);
    }
  }

  lemma ProposeAccounts(env: Env, s: CycleState, w: nat, displaced: seq<QueuedNeed>, n: nat)
    requires n < |env.needs| && Accounted(env, s, n) && Enabled(env, s, Propose(w, displaced))
    ensures Accounted(env, AfterPropose(env, s, w, displaced), n)
  {
    var p := ProposalOf(env, s.workers[w]);
    if !Accepts(s.claims, SeqAt(s, p.bucket), p) {
      StayAccounts(env, s, w, s.workers[w].(phase := Pushing([], false)), n);
    } else if exists m :: m in Evicted(s.claims, p) && s.claims[m].need == n {
      LoserAccounts(env, s, w, displaced, n);
    } else {
      KeeperAccounts(env, s, w, displaced, n);
    }
  }

  lemma MoveAccounts(env: Env, s: CycleState, mv: Move, n: nat)
    requires n < |env.needs| && Accounted(env, s, n) && Enabled(env, s, mv)
    ensures Accounted(env, Apply(env, s, mv), n)
  {
    match mv
    case Pull(w, at) => PullAccounts(env, s, w, at, n);
    case Propose(w, displaced) => ProposeAccounts(env, s, w, displaced, n);
    case Push(w) => PushAccounts(env, s, w, n);
    case Look(w) =>
      LeaveAccounts(env, s, w, n);
      StayAccounts(env, s, w, s.workers[w].(phase := Searching), n);
      StayAccounts(env, s, w, s.workers[w].(phase := Pass1(0, [], Deficit(env, s.claims, s.workers[w].need))), n);
    case Search(w, found, bucket) => StayAccounts(env, s, w, s.workers[w].(phase := Chosen(found, bucket)), n);
    case Scan(w) => StayAccounts(env, s, w, s.workers[w].(phase := AfterScan(env, s.claims, s.workers[w])), n);
    case Observe(w) =>
      LeaveAccounts(env, s, w, n);
      var ph := s.workers[w].phase;
      StayAccounts(env, s, w, s.workers[w].(phase := Observed(ph.out, ph.bucket, SeqAt(s, ph.bucket))), n);
  }

  lemma SettledStable(env: Env, s: CycleState, w: nat, displaced: seq<QueuedNeed>, n: nat)
    requires Enabled(env, s, Propose(w, displaced))
    requires n in s.settled && SettledOK(env, s.claims, n)
    ensures n in AfterPropose(env, s, w, displaced).settled ==>
            SettledOK(env, AfterPropose(env, s, w, displaced).claims, n)
  {
    var p := ProposalOf(env, s.workers[w]);
    if Accepts(s.claims, SeqAt(s, p.bucket), p) && n in AfterPropose(env, s, w, displaced).settled {
      var d := Commit(s.claims, p);
      CommitAdvances(s.claims, p);
      SeenStable(env, s.claims, d, n, Idle, |PoolFor(env, n, Idle)|);
      SeenStable(env, s.claims, d, n, Speculative, |PoolFor(env, n, Speculative)|);
      assert forall m | m in Evicted(s.claims, p) :: s.claims[m].need != n;
      if IsZero(Deficit(env, s.claims, n)) {
        DeficitStaysZero(env, s.claims, d, n);
      }
    }
  }

  lemma ProposeFacts(env: Env, c0: Claims, s: CycleState, w: nat, displaced: seq<QueuedNeed>)
    requires EnvyInv(env, c0, s) && Enabled(env, s, Propose(w, displaced))
    ensures var s' := AfterPropose(env, s, w, displaced);
            && (forall r | r in s'.workers :: ScanFacts(env, s'.claims, r))
            && (forall n | n in s'.settled :: SettledOK(env, s'.claims, n))
  {
    var s' := AfterPropose(env, s, w, displaced);
    var r := s.workers[w];
    assert r in s.workers;
    CommitAdvances(s.claims, ProposalOf(env, r));
    forall x | x in s'.workers
      ensures ScanFacts(env, s'.claims, x)
    {
      if x in s.workers {
        ScanFactsStable(env, s.claims, s'.claims, x);
      } else {
        assert x == s'.workers[w];
        ScanFactsStable(env, s.claims, s'.claims, r);
      }
    }
    forall n | n in s'.settled
      ensures SettledOK(env, s'.claims, n)
    {
      SettledStable(env, s, w, displaced, n);
    }
  }

  lemma WorkerFacts(env: Env, s: CycleState, w: nat, r: Worker)
    requires w < |s.workers| && ScanFacts(env, s.claims, r)
    requires forall x | x in s.workers :: ScanFacts(env, s.claims, x)
    ensures forall x | x in SetWorker(s, w, r).workers :: ScanFacts(env, s.claims, x)
  {
  }

  /** Leaving the Idle loop with budget left means every Idle machine is out of reach;
      ending the run that way means every Speculative one is, too. */
  lemma LeaveFacts(env: Env, c0: Claims, s: CycleState, w: nat)
    requires EnvyInv(env, c0, s) && Runs(env, s, w)
    requires s.workers[w].retries <= 0 || !Plain(env.needs[s.workers[w].need]) ||
             AllBlocked(env, s.claims, s.workers[w].need, s.workers[w].st)
    ensures var s' := LeaveState(s, w);
            && (forall r | r in s'.workers :: ScanFacts(env, s'.claims, r))
            && (forall n | n in s'.settled :: SettledOK(env, s'.claims, n))
  {
    var r := s.workers[w];
    assert r in s.workers;
    WorkerFacts(env, s, w, Waiting);
    if r.st == Idle {
      WorkerFacts(env, s, w, r.(st := Speculative, phase := Top));
    }
  }

  lemma WalkFacts(env: Env, c0: Claims, s: CycleState, mv: Move)
    requires EnvyInv(env, c0, s) && Enabled(env, s, mv) && !mv.Propose?
    ensures var s' := Apply(env, s, mv);
            && (forall r | r in s'.workers :: ScanFacts(env, s'.claims, r))
            && (forall n | n in s'.settled :: SettledOK(env, s'.claims, n))
  {
    var r := s.workers[mv.w];
    assert r in s.workers;
    var s' := Apply(env, s, mv);
    if mv.Look? && r.retries > 0 && IsZero(Deficit(env, s.claims, r.need)) {
      WorkerFacts(env, s, mv.w, Waiting);
    } else if (mv.Look? && r.retries <= 0) || (mv.Observe? && r.phase.out == []) ||
              (mv.Push? && r.phase.todo == [] && r.phase.committed && !Plain(env.needs[r.need])) {
      LeaveFacts(env, c0, s, mv.w);
    } else {
      if mv.Scan? {
        ScanStep(env, s.claims, r);
      }
      WorkerFacts(env, s, mv.w, s'.workers[mv.w]);
    }
  }

  lemma MoveKeepsEnvy(env: Env, c0: Claims, s: CycleState, mv: Move)
    requires EnvyInv(env, c0, s) && Enabled(env, s, mv)
    ensures EnvyInv(env, c0, Apply(env, s, mv))
  {
    MoveKeeps(env, c0, s, mv);
    if mv.Propose? {
      ProposeFacts(env, c0, s, mv.w, mv.displaced);
    } else {
      WalkFacts(env, c0, s, mv);
    }
    forall n | 0 <= n < |env.needs|
      ensures Accounted(env, Apply(env, s, mv), n)
    {
      MoveAccounts(env, s, mv, n);
    }
  }

  lemma {:induction false} RunKeepsEnvy(env: Env, c0: Claims, s: CycleState, moves: seq<Move>)
    requires EnvyInv(env, c0, s) && Legal(env, s, moves)
    ensures EnvyInv(env, c0, After(env, s, moves))
    decreases |moves|
  {
    if moves != [] {
      MoveKeepsEnvy(env, c0, s, moves[0]);
      RunKeepsEnvy(env, c0, Apply(env, s, moves[0]), moves[1..]);
    }
  }

  lemma StartsEnvyInv(env: Env, s: CycleState)
    requires Starts(env, s)
    ensures EnvyInv(env, s.claims, s)
  {
    StartsInv(env, s);
    forall n | 0 <= n < |env.needs|
      ensures Accounted(env, s, n)
    {
      if !IsZero(Deficit(env, s.claims, n)) {
        assert QueuedNeed(n, env.retries) in s.queue;
      }
    }
  }

  /** A run of the workers that reached the barrier. */
  ghost predicate Completes(env: Env, s: CycleState, moves: seq<Move>, e: CycleState) {
    Starts(env, s) && Legal(env, s, moves) && After(env, s, moves) == e && AtBarrier(e)
  }

  /** Every machine of the Need's pools that fits it is held, by a Need that does not yield
      to it: none of lower priority, none of equal priority and cheaper to interrupt, none
      equal in both and cheaper to reclaim. */
  predicate NothingToEnvy(env: Env, c: Claims, n: nat)
    requires n < |env.needs|
  {
    forall st, m | (st == Idle || st == Speculative) && m in PoolFor(env, n, st) && Fits(env.needs[n], m) ::
      m.id in c && c[m.id].need < |env.needs| && !Yields(env.needs[c[m.id].need].profile, env.needs[n].profile)
  }

  /** No justified envy. Whatever the interleaving, once the workers are done a plain
      Need that is still short either spent its retry budget, or has nothing to envy. The
      second holds whenever some run of the Need ended with budget left after its last
      lost claim. */
  lemma {:induction false} NoJustifiedEnvy(env: Env, s: CycleState, moves: seq<Move>, e: CycleState, n: nat)
    requires Completes(env, s, moves, e) && n < |env.needs| && Plain(env.needs[n])
    requires !IsZero(Deficit(env, e.claims, n))
    ensures (n in e.settled && NothingToEnvy(env, e.claims, n)) || (n !in e.settled && n in e.exhausted)
  {
    StartsEnvyInv(env, s);
    RunKeepsEnvy(env, s.claims, s, moves);
    assert Accounted(env, e, n);
    assert !Pending(e, n);
    if n in e.settled {
      assert SettledOK(env, e.claims, n);
      forall st, m | (st == Idle || st == Speculative) && m in PoolFor(env, n, st) && Fits(env.needs[n], m)
        ensures m.id in e.claims && e.claims[m.id].need < |env.needs|
        ensures !Yields(env.needs[e.claims[m.id].need].profile, env.needs[n].profile)
      {
        assert AllBlocked(env, e.claims, n, st);
        var j :| 0 <= j < |PoolFor(env, n, st)| && PoolFor(env, n, st)[j] == m;
        InReachTakeable(env, e.claims, m.id, n);
      }
    }
  }
}
