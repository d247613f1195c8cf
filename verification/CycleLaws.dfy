/** What one move of the cycle may do to the ledger, in terms of the Needs themselves: who
    yields to whom, what is committed whole, and what a commit costs the others. */
module CycleLaws {
  import opened Resources
  import opened Fleet
  import opened Views
  import opened Ledger
  import opened Cycle
  import opened CycleSafety

  // ---- Runs and their prefixes --------------------------------------------

  lemma {:induction false} PrefixLegal(env: Env, s: CycleState, moves: seq<Move>, k: nat)
    requires Legal(env, s, moves) && k < |moves|
    ensures Legal(env, s, moves[..k]) && Legal(env, s, moves[..k + 1])
    ensures Enabled(env, After(env, s, moves[..k]), moves[k])
    ensures After(env, s, moves[..k + 1]) == Apply(env, After(env, s, moves[..k]), moves[k])
    decreases k
  {
    assert moves[..k + 1] != [] && moves[..k + 1][0] == moves[0];
    if k == 0 {
      assert moves[..0] == [] && moves[..1][1..] == [];
    } else {
      var next, rest := Apply(env, s, moves[0]), moves[1..];
      assert moves[..k][1..] == rest[..k - 1] && moves[..k + 1][1..] == rest[..k];
      PrefixLegal(env, next, rest, k - 1);
    }
  }

  /** A reachable ledger is as good a start as the first. */
  lemma Rebased(env: Env, c0: Claims, s: CycleState)
    requires Inv(env, c0, s)
    ensures Inv(env, s.claims, s)
  {
  }

  /** A move is one worker's; the others stay as they are. */
  lemma OthersStay(env: Env, s: CycleState, mv: Move)
    requires Enabled(env, s, mv)
    ensures |Apply(env, s, mv).workers| == |s.workers|
    ensures forall v | 0 <= v < |s.workers| && v != mv.w :: Apply(env, s, mv).workers[v] == s.workers[v]
  {
    match mv
    case Push(w) => assert Apply(env, s, mv) == AfterPush(env, s, w);
    case Propose(w, displaced) => assert Apply(env, s, mv) == AfterPropose(env, s, w, displaced);
    case Look(w) => assert Apply(env, s, mv) == AfterLook(env, s, w);
    case _ =>
  }

  // ---- Who yields to whom -------------------------------------------------

  /** By priority, then by what an interruption costs, then by what a reclamation costs. */
  predicate Yields(loser: Profile, winner: Profile) {
    || loser.priority < winner.priority
    || (loser.priority == winner.priority && loser.interruption < winner.interruption)
    || (loser.priority == winner.priority && loser.interruption == winner.interruption &&
        loser.reclamation < winner.reclamation)
  }

  lemma LessYields(a: Profile, b: Profile)
    ensures PrecedenceOf(a).Less(PrecedenceOf(b)) <==> Yields(a, b)
  {
  }

  /** A machine changes hands only to a Need its holder yields to: between any two points of
      any run, its holder either stays or rises in priority, at equal priority in
      interruption penalty, at both equal in reclamation penalty. */
  lemma {:induction false} HolderRises(env: Env, s: CycleState, moves: seq<Move>, more: seq<Move>, id: MachineId)
    requires Starts(env, s) && Legal(env, s, moves) && Legal(env, After(env, s, moves), more)
    requires id in After(env, s, moves).claims
    ensures var c, d := After(env, s, moves).claims, After(env, After(env, s, moves), more).claims;
            && id in d && c[id].need < |env.needs| && d[id].need < |env.needs|
            && (d[id] == c[id] || Yields(env.needs[c[id].need].profile, env.needs[d[id].need].profile))
  {
    var e := After(env, s, moves);
    StartsInv(env, s);
    RunKeeps(env, s.claims, s, moves);
    Rebased(env, s.claims, e);
    RunKeeps(env, e.claims, e, more);
    var c, d := e.claims, After(env, e, more).claims;
    LessYields(env.needs[c[id].need].profile, env.needs[d[id].need].profile);
  }

  // ---- What is committed --------------------------------------------------

  /** A gang of several machines: it must share a domain, and one unit does not cover it. */
  predicate ManyMachines(n: Need) {
    SameKey(n.profile).Some? && !Covers(n.minUnit, n.aggregate)
  }

  /** The machine is free, or its holder yields to the Need. */
  predicate InReach(env: Env, c: Claims, id: MachineId, n: nat)
    requires n < |env.needs|
  {
    id in c ==> c[id].need < |env.needs| && Yields(env.needs[c[id].need].profile, env.needs[n].profile)
  }

  lemma InReachTakeable(env: Env, c: Claims, id: MachineId, n: nat)
    requires ClaimsOK(env, c) && n < |env.needs|
    ensures Takeable(c, id, PrecedenceOf(env.needs[n].profile)) <==> InReach(env, c, id, n)
  {
    if id in c {
      LessYields(env.needs[c[id].need].profile, env.needs[n].profile);
    }
  }

  /** All or nothing: a gang's proposal leaves the ledger as it is, or gives it every machine
      it named. */
  lemma GangWhole(env: Env, s: CycleState, w: nat, displaced: seq<QueuedNeed>)
    requires Enabled(env, s, Propose(w, displaced)) && ManyMachines(env.needs[s.workers[w].need])
    ensures var r, d := s.workers[w], Apply(env, s, Propose(w, displaced)).claims;
            d == s.claims || forall id | id in r.phase.out :: id in d && d[id].need == r.need
  {
  }

  /** ... at every point of every run. */
  lemma {:induction false} GangsCommitWhole(env: Env, s: CycleState, moves: seq<Move>, k: nat)
    requires Legal(env, s, moves) && k < |moves| && moves[k].Propose?
    ensures Legal(env, s, moves[..k]) && Legal(env, s, moves[..k + 1])
    ensures Enabled(env, After(env, s, moves[..k]), moves[k])
    ensures var e, d := After(env, s, moves[..k]), After(env, s, moves[..k + 1]).claims;
            var r := e.workers[moves[k].w];
            ManyMachines(env.needs[r.need]) ==>
              d == e.claims || forall id | id in r.phase.out :: id in d && d[id].need == r.need
  {
    PrefixLegal(env, s, moves, k);
    var e := After(env, s, moves[..k]);
    if ManyMachines(env.needs[e.workers[moves[k].w].need]) {
      GangWhole(env, e, moves[k].w, moves[k].displaced);
    }
  }

  /** What the proposal of any other Need does: with the bucket unchanged since it was
      observed, exactly the available machines it named change to it, whatever the others
      are; otherwise nothing changes. */
  lemma OthersTakeWhatTheyCan(env: Env, c0: Claims, s: CycleState, w: nat, displaced: seq<QueuedNeed>)
    requires Inv(env, c0, s) && Enabled(env, s, Propose(w, displaced))
    requires !ManyMachines(env.needs[s.workers[w].need])
    ensures var r, d := s.workers[w], Apply(env, s, Propose(w, displaced)).claims;
            && (SeqAt(s, r.phase.bucket) != r.phase.seqno ==> d == s.claims)
            && (SeqAt(s, r.phase.bucket) == r.phase.seqno ==>
                  forall id | id in r.phase.out && InReach(env, s.claims, id, r.need) ::
                    id in d && d[id].need == r.need)
            && (forall id | id in s.claims && (id !in r.phase.out || !InReach(env, s.claims, id, r.need)) ::
                  id in d && d[id] == s.claims[id])
  {
    var r := s.workers[w];
    forall id
      ensures Takeable(s.claims, id, PrecedenceOf(env.needs[r.need].profile)) <==> InReach(env, s.claims, id, r.need)
    {
      InReachTakeable(env, s.claims, id, r.need);
    }
  }

  /** A commit records what the run had left when it proposed, so that a machine lost later
      sends its Need back with one retry less than that. */
  lemma CommitRecords(env: Env, s: CycleState, w: nat, displaced: seq<QueuedNeed>, id: MachineId)
    requires Enabled(env, s, Propose(w, displaced))
    requires var d := Apply(env, s, Propose(w, displaced)).claims; id in d && (id in s.claims ==> d[id] != s.claims[id])
    ensures var r, d := s.workers[w], Apply(env, s, Propose(w, displaced)).claims;
            id in r.phase.out && d[id].need == r.need && d[id].retriesLeft == r.retries
  {
  }

  /** The machines whose record a step replaced. */
  function LostTo(c: Claims, d: Claims): (lost: set<MachineId>)
    ensures lost <= c.Keys
  {
    set m | m in c && (m !in d || d[m] != c[m])
  }

  lemma LostEvicted(c: Claims, p: Proposal)
    ensures LostTo(c, Commit(c, p)) == Evicted(c, p)
  {
  }

  /** Every loser is among those that come back, once. */
  ghost predicate ComeBack(c: Claims, lost: set<MachineId>, back: seq<QueuedNeed>)
    requires lost <= c.Keys
  {
    && (forall id | id in lost :: exists q: QueuedNeed :: q in back && q.need == c[id].need)
    && (forall i, j | 0 <= i < j < |back| :: back[i].need != back[j].need)
  }

  /** Who comes back lost something, and has one retry less than the least it had left there. */
  ghost predicate PaidFor(c: Claims, lost: set<MachineId>, q: QueuedNeed)
    requires lost <= c.Keys
  {
    && (exists id :: id in lost && c[id].need == q.need && q.retriesLeft == c[id].retriesLeft - 1)
    && (forall id | id in lost && c[id].need == q.need :: q.retriesLeft < c[id].retriesLeft)
  }

  lemma DisplacedComeBack(c: Claims, p: Proposal, displaced: seq<QueuedNeed>)
    requires IsDisplaced(c, p, displaced)
    ensures ComeBack(c, Evicted(c, p), displaced)
    ensures forall q | q in displaced :: PaidFor(c, Evicted(c, p), q)
  {
    forall q | q in displaced
      ensures PaidFor(c, Evicted(c, p), q)
    {
      assert LeastBudget(c, p, q);
    }
  }

  /** Whoever loses a machine comes back, once, with one retry less than the least of what the
      records it lost had left. */
  lemma LosersComeBack(env: Env, s: CycleState, w: nat, displaced: seq<QueuedNeed>)
    requires Enabled(env, s, Propose(w, displaced))
    ensures var lost := LostTo(s.claims, Apply(env, s, Propose(w, displaced)).claims);
            ComeBack(s.claims, lost, displaced) && forall q | q in displaced :: PaidFor(s.claims, lost, q)
  {
    var c, p := s.claims, ProposalOf(env, s.workers[w]);
    LostEvicted(c, p);
    if Accepts(c, SeqAt(s, p.bucket), p) {
      DisplacedComeBack(c, p, displaced);
    }
  }

  // ---- What a commit costs the others -------------------------------------

  ghost predicate SeqsOK(s: CycleState) {
    forall r | r in s.workers && r.Running? && r.phase.Observed? :: r.phase.seqno <= SeqAt(s, r.phase.bucket)
  }

  lemma MoveSeqs(env: Env, s: CycleState, mv: Move)
    requires SeqsOK(s) && Enabled(env, s, mv)
    ensures SeqsOK(Apply(env, s, mv))
    ensures forall b :: SeqAt(s, b) <= SeqAt(Apply(env, s, mv), b)
  {
    var t := Apply(env, s, mv);
    OthersStay(env, s, mv);
    OwnSeq(env, s, mv);
    SeqsGrow(env, s, mv);
    forall v | 0 <= v < |t.workers| && t.workers[v].Running? && t.workers[v].phase.Observed?
      ensures t.workers[v].phase.seqno <= SeqAt(t, t.workers[v].phase.bucket)
    {
      if v != mv.w {
        assert s.workers[v] in s.workers;
      }
    }
  }

  lemma SeqsGrow(env: Env, s: CycleState, mv: Move)
    requires Enabled(env, s, mv)
    ensures forall b :: SeqAt(s, b) <= SeqAt(Apply(env, s, mv), b)
  {
  }

  lemma OwnSeq(env: Env, s: CycleState, mv: Move)
    requires Enabled(env, s, mv)
    ensures mv.w < |Apply(env, s, mv).workers|
    ensures var r := Apply(env, s, mv).workers[mv.w];
            r.Running? && r.phase.Observed? ==> r.phase.seqno <= SeqAt(Apply(env, s, mv), r.phase.bucket)
  {
    if mv.Scan? {
      ScanSeq(env, s, mv);
    } else if mv.Push? || mv.Propose? {
      PushSeq(env, s, mv);
    } else {
      RestSeq(env, s, mv);
    }
  }

  lemma ScanSeq(env: Env, s: CycleState, mv: Move)
    requires Enabled(env, s, mv) && mv.Scan?
    ensures mv.w < |Apply(env, s, mv).workers|
    ensures var r := Apply(env, s, mv).workers[mv.w];
            r.Running? && r.phase.Observed? ==> r.phase.seqno <= SeqAt(Apply(env, s, mv), r.phase.bucket)
  {
  }

  lemma PushSeq(env: Env, s: CycleState, mv: Move)
    requires Enabled(env, s, mv) && (mv.Push? || mv.Propose?)
    ensures mv.w < |Apply(env, s, mv).workers|
    ensures var r := Apply(env, s, mv).workers[mv.w];
            r.Running? && r.phase.Observed? ==> r.phase.seqno <= SeqAt(Apply(env, s, mv), r.phase.bucket)
  {
  }

  lemma RestSeq(env: Env, s: CycleState, mv: Move)
    requires Enabled(env, s, mv) && !mv.Scan? && !mv.Push? && !mv.Propose?
    ensures mv.w < |Apply(env, s, mv).workers|
    ensures var r := Apply(env, s, mv).workers[mv.w];
            r.Running? && r.phase.Observed? ==> r.phase.seqno <= SeqAt(Apply(env, s, mv), r.phase.bucket)
  {
  }

  lemma {:induction false} RunSeqs(env: Env, s: CycleState, moves: seq<Move>)
    requires SeqsOK(s) && Legal(env, s, moves)
    ensures SeqsOK(After(env, s, moves))
    ensures forall b :: SeqAt(s, b) <= SeqAt(After(env, s, moves), b)
    decreases |moves|
  {
    if moves != [] {
      MoveSeqs(env, s, moves[0]);
      RunSeqs(env, Apply(env, s, moves[0]), moves[1..]);
    }
  }

  /** Optimistic concurrency: once a proposal of a bucket commits, every other proposal of
      that bucket observed before is refused, however much later it comes. */
  lemma {:induction false} CommitStalesOthers(env: Env, s: CycleState, moves: seq<Move>, w: nat,
                                              displaced: seq<QueuedNeed>, v: nat, more: seq<Move>,
                                              lost: seq<QueuedNeed>)
    requires Starts(env, s) && Legal(env, s, moves)
    requires var e := After(env, s, moves);
             && Enabled(env, e, Propose(w, displaced)) && Apply(env, e, Propose(w, displaced)).claims != e.claims
             && v < |e.workers| && v != w && e.workers[v].Running? && e.workers[v].phase.Observed?
             && e.workers[v].phase.bucket == e.workers[w].phase.bucket
             && Legal(env, Apply(env, e, Propose(w, displaced)), more)
             && var g := After(env, Apply(env, e, Propose(w, displaced)), more);
                v < |g.workers| && g.workers[v] == e.workers[v] && Enabled(env, g, Propose(v, lost))
    ensures var g := After(env, Apply(env, After(env, s, moves), Propose(w, displaced)), more);
            Apply(env, g, Propose(v, lost)).claims == g.claims
  {
    var e := After(env, s, moves);
    RunSeqs(env, s, moves);
    var f := Apply(env, e, Propose(w, displaced));
    assert e.workers[v] in e.workers && e.workers[w] in e.workers;
    MoveSeqs(env, e, Propose(w, displaced));
    RunSeqs(env, f, more);
  }

  // ---- One commit a state -------------------------------------------------

  /** The worker is done with the machine state `st` in this run. */
  predicate Past(r: Worker, st: State) {
    || r.Waiting?
    || (r.st == st && r.phase.Pushing? && r.phase.committed)
    || (st == Idle && r.st == Speculative)
  }

  lemma PastStays(env: Env, s: CycleState, w: nat, st: State, mv: Move)
    requires Enabled(env, s, mv) && w < |s.workers| && Past(s.workers[w], st) && (st == Idle || st == Speculative)
    requires s.workers[w].Running? ==> s.workers[w].need < |env.needs| && !Plain(env.needs[s.workers[w].need])
    requires !(mv.Pull? && mv.w == w)
    ensures w < |Apply(env, s, mv).workers| && Past(Apply(env, s, mv).workers[w], st)
    ensures Apply(env, s, mv).workers[w].Running? ==>
              s.workers[w].Running? && Apply(env, s, mv).workers[w].need == s.workers[w].need
  {
    if mv.w == w {
      OwnPast(env, s, st, mv);
    } else {
      OthersStay(env, s, mv);
    }
  }

  lemma OwnPast(env: Env, s: CycleState, st: State, mv: Move)
    requires Enabled(env, s, mv) && !mv.Pull? && Past(s.workers[mv.w], st) && (st == Idle || st == Speculative)
    requires !Plain(env.needs[s.workers[mv.w].need])
    ensures mv.w < |Apply(env, s, mv).workers| && Past(Apply(env, s, mv).workers[mv.w], st)
    ensures Apply(env, s, mv).workers[mv.w].Running? ==> Apply(env, s, mv).workers[mv.w].need == s.workers[mv.w].need
  {
  }

  lemma {:induction false} PastLater(env: Env, s: CycleState, w: nat, st: State, moves: seq<Move>)
    requires Legal(env, s, moves) && w < |s.workers| && Past(s.workers[w], st) && (st == Idle || st == Speculative)
    requires s.workers[w].Running? ==> s.workers[w].need < |env.needs| && !Plain(env.needs[s.workers[w].need])
    requires forall mv | mv in moves :: !(mv.Pull? && mv.w == w)
    ensures w < |After(env, s, moves).workers| && Past(After(env, s, moves).workers[w], st)
    decreases |moves|
  {
    if moves != [] {
      assert moves[0] in moves && forall mv | mv in moves[1..] :: mv in moves;
      PastStays(env, s, w, st, moves[0]);
      PastLater(env, Apply(env, s, moves[0]), w, st, moves[1..]);
    }
  }

  /** A topology-constrained Need commits once in each machine state: after a commit, and
      until its worker takes up a new entry, it proposes nothing from that state again. */
  lemma {:induction false} OneCommitAState(env: Env, s: CycleState, w: nat, displaced: seq<QueuedNeed>, more: seq<Move>)
    requires Enabled(env, s, Propose(w, displaced)) && !Plain(env.needs[s.workers[w].need])
    requires s.workers[w].st == Idle || s.workers[w].st == Speculative
    requires Apply(env, s, Propose(w, displaced)).claims != s.claims
    requires Legal(env, Apply(env, s, Propose(w, displaced)), more)
    requires forall mv | mv in more :: !(mv.Pull? && mv.w == w)
    ensures var g := After(env, Apply(env, s, Propose(w, displaced)), more);
            w < |g.workers| &&
            !(g.workers[w].Running? && g.workers[w].st == s.workers[w].st && g.workers[w].phase.Observed?)
  {
    var f := Apply(env, s, Propose(w, displaced));
    PastLater(env, f, w, s.workers[w].st, more);
  }

  function Lacking(want: nat, have: nat): nat {
    if want < have then 0 else want - have
  }

  /** A worker sets out with exactly what its Need lacks: in each dimension, the demand less
      what the machines it holds provide. */
  lemma SetsOutWithDeficit(env: Env, s: CycleState, w: nat, d: string)
    requires Enabled(env, s, Look(w)) && s.workers[w].retries > 0 && Plain(env.needs[s.workers[w].need])
    ensures var n, r := env.needs[s.workers[w].need], Apply(env, s, Look(w)).workers[w];
            var held := HeldAlloc(env.machines, HeldBy(s.claims, s.workers[w].need));
            if Covers(held, n.aggregate) then r.Waiting?
            else r.Running? && r.phase.Pass1? && r.phase.i == 0 && r.phase.out == [] &&

                 Qty(r.phase.rem, d) == Lacking(Qty(n.aggregate, d), Qty(held, d))
  {
    ResidualZero(env.needs[s.workers[w].need].aggregate,
                 HeldAlloc(env.machines, HeldBy(s.claims, s.workers[w].need)));
  }
}
