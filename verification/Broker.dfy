/** The cycle's shared state and the broker that commits proposals against it. */
module Broker {
  import opened Fleet
  import opened Ledger

  class SharedState {
    var claimedBy: Claims
    var claimedByNeed: map<nat, set<MachineId>>
    var bucketSeq: map<BucketKey, nat>
    var sameDomain: map<nat, string>
    var sameSatisfiable: map<nat, bool>

    constructor ()
      ensures Valid()
      ensures claimedBy == map[] && bucketSeq == map[] && sameDomain == map[] && sameSatisfiable == map[]
    {
      claimedBy, claimedByNeed, bucketSeq := map[], map[], map[];
      sameDomain, sameSatisfiable := map[], map[];
    }

    function ReverseOf(n: nat): set<MachineId>
      reads `claimedByNeed
    {
      if n in claimedByNeed then claimedByNeed[n] else {}
    }

    /** The forward and reverse claim maps are mutual inverses. */
    ghost predicate Valid()
      reads `claimedBy, `claimedByNeed
    {
      forall n: nat :: ReverseOf(n) == HeldBy(claimedBy, n)
    }

    function SeqOf(b: BucketKey): nat
      reads `bucketSeq
    {
      if b in bucketSeq then bucketSeq[b] else 0
    }

    /** The pre-pass's choice for a gang, and whether any domain could cover it. */
    method RecordSame(n: nat, domain: string, satisfiable: bool)
      modifies `sameDomain, `sameSatisfiable
      ensures sameDomain == old(sameDomain)[n := domain]
      ensures sameSatisfiable == old(sameSatisfiable)[n := satisfiable]
    {
      sameDomain := sameDomain[n := domain];
      sameSatisfiable := sameSatisfiable[n := satisfiable];
    }

    /** Writes one claim into both maps. The pre-pass uses it directly, having asked
        IsClaimed first; the broker uses it once the old holder is released. */
    method SeedClaim(m: MachineId, n: nat, prec: Precedence, retriesLeft: int)
      modifies this`claimedBy, this`claimedByNeed
      ensures claimedBy == old(claimedBy)[m := Claim(n, prec, retriesLeft)]
      ensures old(Valid()) && (m in old(claimedBy) ==> old(claimedBy)[m].need == n) ==> Valid()
    {
      ghost var before := claimedBy;
      claimedBy := claimedBy[m := Claim(n, prec, retriesLeft)];
      if n !in claimedByNeed {
        claimedByNeed := claimedByNeed[n := {}];
      }
      claimedByNeed := claimedByNeed[n := claimedByNeed[n] + {m}];
      if old(Valid()) && (m in before ==> before[m].need == n) {
        forall k: nat
          ensures ReverseOf(k) == HeldBy(claimedBy, k)
        {
          assert old(ReverseOf(k)) == HeldBy(before, k);
          assert HeldBy(claimedBy, k) == if k == n then HeldBy(before, k) + {m} else HeldBy(before, k);
        }
      }
    }

    method ReleaseOne(m: MachineId, n: nat, ghost before: Claims)
      requires Valid()
      requires m in before && before[m].need == n
      requires m in claimedBy ==> claimedBy[m] == before[m]
      modifies this`claimedBy, this`claimedByNeed
      ensures Valid() && claimedBy == old(claimedBy) - {m}
    {
      claimedBy := claimedBy - {m};
      if n in claimedByNeed {
        var held := claimedByNeed[n] - {m};
        if held == {} {
          claimedByNeed := claimedByNeed - {n};
        } else {
          claimedByNeed := claimedByNeed[n := held];
        }
      }
      forall k: nat
        ensures ReverseOf(k) == HeldBy(claimedBy, k)
      {
        assert old(ReverseOf(k)) == HeldBy(old(claimedBy), k);
        assert HeldBy(claimedBy, k) == HeldBy(old(claimedBy), k) - {m};
      }
    }

    /** Drops the evicted claims, one machine at a time, and collects the budget each
        evicted Need is re-queued with. A machine may be listed twice. */
    method Release(p: Proposal, displace: seq<Displacement>) returns (budgets: map<nat, int>)
      requires Valid()
      requires forall d :: d in displace <==> IsEviction(claimedBy, p, d)
      modifies this`claimedBy, this`claimedByNeed
      ensures Valid()
      ensures claimedBy == old(claimedBy) - Evicted(old(claimedBy), p)
      ensures forall n | n in budgets :: LeastBudget(old(claimedBy), p, QueuedNeed(n, budgets[n]))
      ensures forall m | m in Evicted(old(claimedBy), p) :: old(claimedBy)[m].need in budgets
    {
      budgets := map[];
      ghost var before := claimedBy;
      ghost var gone: set<MachineId> := {};
      for i := 0 to |displace|
        invariant Valid()
        invariant gone <= Evicted(before, p) && claimedBy == before - gone
        invariant forall j | 0 <= j < i :: displace[j].mid in gone
        invariant BudgetsAre(before, gone, budgets)
      {
        var d := displace[i];
        assert d in displace && IsEviction(before, p, d);
        ReleaseOne(d.mid, d.was.need, before);
        BudgetsStep(before, gone, budgets, d);
        gone := gone + {d.mid};
        var left := d.was.retriesLeft - 1;
        if d.was.need !in budgets || left < budgets[d.was.need] {
          budgets := budgets[d.was.need := left];
        }
      }
      AllGone(before, p, displace, gone);
      BudgetsAreLeast(before, p, budgets);
    }

    /** Claims every listed machine for the proposer; none is held by anyone else. */
    method Take(p: Proposal, machines: seq<MachineId>)
      requires Valid()
      requires forall m | m in machines :: m !in claimedBy
      modifies this`claimedBy, this`claimedByNeed
      ensures Valid()
      ensures claimedBy.Keys == old(claimedBy).Keys + (set m | m in machines)
      ensures forall m | m in claimedBy ::
                claimedBy[m] == (if m in machines then RecordOf(p) else old(claimedBy)[m])
    {
      ghost var before := claimedBy;
      for i := 0 to |machines|
        invariant Valid()
        invariant claimedBy.Keys == before.Keys + (set m | m in machines[..i])
        invariant forall m | m in claimedBy ::
                    claimedBy[m] == (if m in machines then RecordOf(p) else before[m])
      {
        assert machines[..i + 1] == machines[..i] + [machines[i]];
        SeedClaim(machines[i], p.need, p.precedence, p.retriesLeft);
      }
      assert machines[..|machines|] == machines;
    }

    /** Classifies the proposed machines against the current ledger, changing nothing. */
    method Plan(p: Proposal)
      returns (newClaim: seq<MachineId>, displace: seq<Displacement>, conflicted: nat)
      ensures IsPlan(claimedBy, p, newClaim, displace)
      ensures conflicted == 0 <==> forall m | m in p.machines :: Takeable(claimedBy, m, p.precedence)
    {
      newClaim, displace, conflicted := [], [], 0;
      for i := 0 to |p.machines|
        invariant forall m :: m in newClaim <==> m in p.machines[..i] && m !in claimedBy
        invariant forall d :: d in displace <==> d.mid in p.machines[..i] && IsEviction(claimedBy, p, d)
        invariant conflicted == 0 <==> forall k | 0 <= k < i :: Takeable(claimedBy, p.machines[k], p.precedence)
      {
        var m := p.machines[i];
        assert p.machines[..i + 1] == p.machines[..i] + [m];
        if m !in claimedBy {
          newClaim := newClaim + [m];
        } else if claimedBy[m].precedence.Less(p.precedence) {
          displace := displace + [Displacement(m, claimedBy[m])];
        } else {
          conflicted := conflicted + 1;
          assert !Takeable(claimedBy, p.machines[i], p.precedence);
        }
      }
      assert p.machines[..|p.machines|] == p.machines;
    }

    /** Carries out an accepted plan: releases the evicted claims, takes the machines,
        moves the bucket's number. */
    method CommitPlan(p: Proposal, newClaim: seq<MachineId>, displace: seq<Displacement>) returns (r: Outcome)
      requires Valid() && IsPlan(claimedBy, p, newClaim, displace)
      modifies this`claimedBy, this`claimedByNeed, this`bucketSeq
      ensures Valid() && r.Committed? && r.newSeq == SeqOf(p.bucket)
      ensures claimedBy == Commit(old(claimedBy), p)
      ensures bucketSeq == old(bucketSeq)[p.bucket := old(SeqOf(p.bucket)) + 1]
      ensures forall m :: m in r.machines <==> m in Taken(old(claimedBy), p)
      ensures IsDisplaced(old(claimedBy), p, r.displaced)
    {
      ghost var before := claimedBy;
      var budgets := Release(p, displace);
      var committed := Joined(newClaim, displace);
      CommittedIsTaken(before, p, newClaim, displace, committed);
      Take(p, committed);
      assert claimedBy == Commit(before, p);
      var displaced := Requeue(budgets);
      BudgetsAreDisplaced(before, p, budgets, displaced);
      bucketSeq := bucketSeq[p.bucket := SeqOf(p.bucket) + 1];
      r := Committed(committed, displaced, SeqOf(p.bucket));
    }

    /** One broker transaction. Either nothing changes, or the ledger becomes the
        committed one and the bucket's sequence number moves. */
    method Propose(p: Proposal) returns (r: Outcome)
      requires Valid()
      modifies this`claimedBy, this`claimedByNeed, this`bucketSeq
      ensures Valid()
      ensures r.Committed? == Accepts(old(claimedBy), old(SeqOf(p.bucket)), p)
      ensures r.Conflict? ==> claimedBy == old(claimedBy) && bucketSeq == old(bucketSeq)
      ensures r.Committed? ==> claimedBy == Commit(old(claimedBy), p)
      ensures r.Committed? ==> bucketSeq == old(bucketSeq)[p.bucket := old(SeqOf(p.bucket)) + 1]
      ensures r.Committed? ==> forall m :: m in r.machines <==> m in Taken(old(claimedBy), p)
      ensures r.Committed? ==> IsDisplaced(old(claimedBy), p, r.displaced)
      ensures OnlyOutbid(old(claimedBy), claimedBy, p.precedence)
      ensures r.newSeq == SeqOf(p.bucket)
    {
      var current := SeqOf(p.bucket);
      ghost var before, seqs := claimedBy, bucketSeq;
      if current != p.observedSeq {
        return Conflict(current);
      }
      var newClaim, displace, conflicted := Plan(p);
      assert claimedBy == before && bucketSeq == seqs && SeqOf(p.bucket) == current;
      PlanAccepts(before, p, newClaim, displace, conflicted);
      if !ModeAccepts(p.mode, newClaim, displace, conflicted) {
        return Conflict(current);
      }
      r := CommitPlan(p, newClaim, displace);
      assert claimedBy == Commit(before, p) && bucketSeq == seqs[p.bucket := current + 1];
      CommitOutbids(before, p);
    }
  }

  /** The proposed machines that are free to take: unclaimed ones, and displaceable ones. */
  ghost predicate IsPlan(c: Claims, p: Proposal, newClaim: seq<MachineId>, displace: seq<Displacement>) {
    && (forall m :: m in newClaim <==> m in p.machines && m !in c)
    && (forall d :: d in displace <==> IsEviction(c, p, d))
  }

  /** All or nothing tolerates no conflict; incremental wants something to take. */
  predicate ModeAccepts(mode: Mode, newClaim: seq<MachineId>, displace: seq<Displacement>, conflicted: nat) {
    match mode
    case AllOrNothing => conflicted == 0
    case Incremental => newClaim != [] || displace != []
  }

  /** The broker accepts a plan exactly when the proposal is acceptable. */
  lemma PlanAccepts(c: Claims, p: Proposal, newClaim: seq<MachineId>, displace: seq<Displacement>, conflicted: nat)
    requires IsPlan(c, p, newClaim, displace)
    requires conflicted == 0 <==> forall m | m in p.machines :: Takeable(c, m, p.precedence)
    ensures Accepts(c, p.observedSeq, p) == ModeAccepts(p.mode, newClaim, displace, conflicted)
  {
    if newClaim == [] && displace == [] {
      NothingToTake(c, p, newClaim, displace);
    }
    SomethingToTake(c, p, newClaim, displace);
  }

  method Joined(newClaim: seq<MachineId>, displace: seq<Displacement>) returns (committed: seq<MachineId>)
    ensures forall m :: m in committed <==> m in newClaim || exists k :: 0 <= k < |displace| && displace[k].mid == m
  {
    committed := newClaim;
    for i := 0 to |displace|
      invariant forall m :: m in committed <==> m in newClaim || exists k :: 0 <= k < i && displace[k].mid == m
    {
      committed := committed + [displace[i].mid];
    }
  }

  datatype Displacement = Displacement(mid: MachineId, was: Claim)

  ghost predicate IsEviction(c: Claims, p: Proposal, d: Displacement) {
    d.mid in Evicted(c, p) && d.was == c[d.mid]
  }

  ghost predicate BudgetsAre(c: Claims, gone: set<MachineId>, budgets: map<nat, int>)
    requires gone <= c.Keys
  {
    && (forall n | n in budgets :: exists m :: m in gone && c[m].need == n && budgets[n] == c[m].retriesLeft - 1)
    && (forall m | m in gone :: c[m].need in budgets && budgets[c[m].need] <= c[m].retriesLeft - 1)
  }

  lemma BudgetsStep(c: Claims, gone: set<MachineId>, budgets: map<nat, int>, d: Displacement)
    requires gone <= c.Keys && d.mid in c && d.was == c[d.mid]
    requires BudgetsAre(c, gone, budgets)
    ensures BudgetsAre(c, gone + {d.mid},
                       if d.was.need !in budgets || d.was.retriesLeft - 1 < budgets[d.was.need]
                       then budgets[d.was.need := d.was.retriesLeft - 1] else budgets)
  {
    var all := gone + {d.mid};
    var n, left := d.was.need, d.was.retriesLeft - 1;
    var after := if n !in budgets || left < budgets[n] then budgets[n := left] else budgets;
    forall k | k in after
      ensures exists m :: m in all && c[m].need == k && after[k] == c[m].retriesLeft - 1
    {
      if k == n && (n !in budgets || left < budgets[n]) {
        assert d.mid in all;
      } else {
        var m :| m in gone && c[m].need == k && budgets[k] == c[m].retriesLeft - 1;
        assert m in all;
      }
    }
  }

  lemma BudgetsAreLeast(c: Claims, p: Proposal, budgets: map<nat, int>)
    requires BudgetsAre(c, Evicted(c, p), budgets)
    ensures forall n | n in budgets :: LeastBudget(c, p, QueuedNeed(n, budgets[n]))
  {
    forall n | n in budgets
      ensures LeastBudget(c, p, QueuedNeed(n, budgets[n]))
    {
      var m :| m in Evicted(c, p) && c[m].need == n && budgets[n] == c[m].retriesLeft - 1;
    }
  }

  lemma AllGone(c: Claims, p: Proposal, displace: seq<Displacement>, gone: set<MachineId>)
    requires forall d :: d in displace <==> IsEviction(c, p, d)
    requires gone <= Evicted(c, p)
    requires forall j | 0 <= j < |displace| :: displace[j].mid in gone
    ensures gone == Evicted(c, p)
  {
    forall m | m in Evicted(c, p)
      ensures m in gone
    {
      assert IsEviction(c, p, Displacement(m, c[m]));
    }
  }

  function RecordOf(p: Proposal): Claim {
    Claim(p.need, p.precedence, p.retriesLeft)
  }

  lemma NothingToTake(c: Claims, p: Proposal, newClaim: seq<MachineId>, displace: seq<Displacement>)
    requires forall m :: m in newClaim <==> m in p.machines && m !in c
    requires forall d :: d in displace <==> IsEviction(c, p, d)
    requires newClaim == [] && displace == []
    ensures forall m | m in p.machines :: !Takeable(c, m, p.precedence)
  {
    forall m | m in p.machines
      ensures !Takeable(c, m, p.precedence)
    {
      assert m !in newClaim && m in c;
      assert !IsEviction(c, p, Displacement(m, c[m]));
    }
  }

  lemma SomethingToTake(c: Claims, p: Proposal, newClaim: seq<MachineId>, displace: seq<Displacement>)
    requires forall m :: m in newClaim <==> m in p.machines && m !in c
    requires forall d :: d in displace <==> IsEviction(c, p, d)
    ensures newClaim != [] || displace != [] ==> exists m :: m in p.machines && Takeable(c, m, p.precedence)
  {
    if newClaim != [] {
      assert newClaim[0] in newClaim && Takeable(c, newClaim[0], p.precedence);
    } else if displace != [] {
      assert displace[0] in displace && IsEviction(c, p, displace[0]);
      assert Takeable(c, displace[0].mid, p.precedence);
    }
  }

  lemma CommittedIsTaken(c: Claims, p: Proposal, newClaim: seq<MachineId>, displace: seq<Displacement>,
                         committed: seq<MachineId>)
    requires forall m :: m in newClaim <==> m in p.machines && m !in c
    requires forall d :: d in displace <==> IsEviction(c, p, d)
    requires forall m :: m in committed <==> m in newClaim || exists k :: 0 <= k < |displace| && displace[k].mid == m
    ensures forall m :: m in committed <==> m in Taken(c, p)
  {
    forall m: MachineId
      ensures m in committed <==> m in Taken(c, p)
    {
      if m in committed && m !in newClaim {
        var k :| 0 <= k < |displace| && displace[k].mid == m;
        assert displace[k] in displace && IsEviction(c, p, displace[k]);
      }
      if m in Evicted(c, p) {
        assert IsEviction(c, p, Displacement(m, c[m]));
        var k :| 0 <= k < |displace| && displace[k] == Displacement(m, c[m]);
      }
    }
  }

  lemma BudgetsAreDisplaced(c: Claims, p: Proposal, budgets: map<nat, int>, displaced: seq<QueuedNeed>)
    requires forall n | n in budgets :: LeastBudget(c, p, QueuedNeed(n, budgets[n]))
    requires forall m | m in Evicted(c, p) :: c[m].need in budgets
    requires forall d :: d in displaced <==> d.need in budgets && d.retriesLeft == budgets[d.need]
    requires forall i, j | 0 <= i < j < |displaced| :: displaced[i].need != displaced[j].need
    ensures IsDisplaced(c, p, displaced)
  {
    forall d | d in displaced
      ensures LeastBudget(c, p, d)
    {
      assert d == QueuedNeed(d.need, budgets[d.need]);
    }
    forall m | m in Evicted(c, p)
      ensures exists d :: d in displaced && d.need == c[m].need
    {
      assert QueuedNeed(c[m].need, budgets[c[m].need]) in displaced;
    }
  }

  /** The re-queue entries, in whatever order the map yields them. */
  method Requeue(budgets: map<nat, int>) returns (out: seq<QueuedNeed>)
    ensures forall d :: d in out <==> d.need in budgets && d.retriesLeft == budgets[d.need]
    ensures forall i, j | 0 <= i < j < |out| :: out[i].need != out[j].need
  {
    out := [];
    var todo := budgets.Keys;
    while todo != {}
      invariant todo <= budgets.Keys
      invariant forall d :: d in out <==> d.need in budgets && d.need !in todo && d.retriesLeft == budgets[d.need]
      invariant forall i, j | 0 <= i < j < |out| :: out[i].need != out[j].need
      decreases todo
    {
      var n :| n in todo;
      todo := todo - {n};
      assert forall d | d in out :: d.need != n;
      out := out + [QueuedNeed(n, budgets[n])];
    }
  }
}
