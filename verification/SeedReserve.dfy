/** What the pre-pass speaks for: the acquirable machines a gang's residual is going to be
    filled from are withheld from every gang after it. */
module SeedReserve {
  import opened Resources
  import opened Fleet
  import opened Views
  import opened Ledger
  import opened Cycle
  import opened SameSupply
  import opened SameChoice
  import opened Seed
  import opened SeedSafety
  import opened SeedStability
  import opened Sequences

  // ---- One turn -----------------------------------------------------------

  /** The first `k` candidates were taken: enough of them, or all, and none too many. */
  predicate TookPrefix(members: seq<Machine>, rem: ResVec, before: set<MachineId>, after: set<MachineId>, k: nat) {
    && k <= |members| && after == before + IdSet(members[..k])
    && (k == |members| || Covers(SumAlloc(members[..k]), rem))
    && (k > 0 ==> !Covers(SumAlloc(members[..k - 1]), rem))
  }

  lemma IdSetHead(h: Machine, t: seq<Machine>)
    ensures IdSet([h] + t) == {h.id} + IdSet(t)
  {
    forall id
      ensures id in IdSet([h] + t) <==> id == h.id || id in IdSet(t)
    {
      if id in IdSet(t) {
        var m :| m in t && m.id == id;
        assert m in [h] + t;
      }
      assert h in [h] + t;
    }
  }

  lemma IdSetLast(s: seq<Machine>, m: Machine)
    ensures IdSet(s + [m]) == IdSet(s) + {m.id}
  {
    forall id
      ensures id in IdSet(s + [m]) <==> id in IdSet(s) || id == m.id
    {
      if id in IdSet(s) {
        var x :| x in s && x.id == id;
        assert x in s + [m];
      }
      assert m in s + [m];
    }
  }

  lemma TookOneMore(h: Machine, t: seq<Machine>, rem: ResVec, before: set<MachineId>, after: set<MachineId>, k: nat)
    requires !IsZero(rem) && TookPrefix(t, Sub(rem, Alloc(h)), before + {h.id}, after, k)
    ensures TookPrefix([h] + t, rem, before, after, k + 1)
  {
    assert ([h] + t)[..k + 1] == [h] + t[..k];
    IdSetHead(h, t[..k]);
    CoversSplit(h, t[..k], rem);
    ShorterFails(h, t, rem, k);
  }

  lemma {:induction false} ConsumeMeans(members: seq<Machine>, rem: ResVec, consumed: set<MachineId>) returns (k: nat)
    ensures TookPrefix(members, rem, consumed, Consume(members, rem, consumed), k)
    decreases |members|
  {
    if members == [] || IsZero(rem) {
      k := 0;
      assert members[..0] == [];
      NothingCovers(rem);
    } else {
      var h, t := members[0], members[1..];
      assert members == [h] + t;
      k := ConsumeMeans(t, Sub(rem, Alloc(h)), consumed + {h.id});
      TookOneMore(h, t, rem, consumed, Consume(members, rem, consumed), k);
      k := k + 1;
    }
  }

  lemma FrontUnique(front: seq<Machine>, last: Machine)
    requires Unique(front + [last])
    ensures Unique(front) && last.id !in IdSet(front)
  {
    var s := front + [last];
    forall i, j | 0 <= i < j < |front|
      ensures front[i].id != front[j].id
    {
      assert s[i].id != s[j].id;
    }
    forall m | m in front
      ensures m.id != last.id
    {
      var i :| 0 <= i < |front| && front[i] == m;
      assert s[i].id != s[|front|].id;
    }
  }

  lemma {:induction false} IdsHeld(ms: seq<Machine>, s: seq<Machine>)
    requires Unique(ms) && Unique(s) && forall m | m in s :: m in ms
    ensures HeldAlloc(ms, IdSet(s)) == SumAlloc(s)
    decreases |s|
  {
    if s == [] {
      assert IdSet(s) == {};
      HeldNothing(ms);
    } else {
      var front, last := s[..|s| - 1], s[|s| - 1];
      assert s == front + [last] && last in s;
      assert forall m | m in front :: m in s;
      FrontUnique(front, last);
      IdsHeld(ms, front);
      IdSetLast(front, last);
      HeldAdd(ms, IdSet(front), last);
      SumLast(front, last);
    }
  }

  /** A machine the gang could still acquire in the domain: Idle or Speculative, of its pools,
      hosting a unit, carrying the domain's value, and spoken for by nobody. */
  predicate CouldTake(p: Input, n: Need, key: string, v: string, spoken: set<MachineId>, m: Machine) {
    && m in p.ms && (m.state == Idle || m.state == Speculative)
    && (PinnedTypes(n.profile).Some? ==> m.instanceType != "")
    && Fits(n, m) && Lookup(key, m) == Some(v) && m.id !in spoken
  }

  function Candidates(p: Input, n: Need, key: string, v: string, spoken: set<MachineId>): seq<Machine> {
    Select(Available(n, key, v, spoken), Acquirable(p.ms, n.profile))
  }

  lemma CandidatesIn(p: Input, n: Need, key: string, v: string, spoken: set<MachineId>, m: Machine)
    ensures m in Candidates(p, n, key, v, spoken) <==> CouldTake(p, n, key, v, spoken, m)
  {
    SelectIn(Available(n, key, v, spoken), Acquirable(p.ms, n.profile), m);
    if Matches(n.profile, m) {
      AcquirableIn(p.ms, n.profile, m);
    }
  }

  /** Idle candidates come before Speculative ones. */
  lemma IdleFirst(p: Input, n: Need, key: string, v: string, spoken: set<MachineId>, i: nat, j: nat)
    requires i < j < |Candidates(p, n, key, v, spoken)|
    requires Candidates(p, n, key, v, spoken)[j].state == Idle
    ensures Candidates(p, n, key, v, spoken)[i].state == Idle
  {
    var q := Available(n, key, v, spoken);
    var a, b := Source(p.ms, Idle, n.profile), Source(p.ms, Speculative, n.profile);
    SelectConcat(q, a, b);
    var idle, rest := Select(q, a), Select(q, b);
    assert Candidates(p, n, key, v, spoken) == idle + rest;
    if j >= |idle| {
      assert (idle + rest)[j] in rest;
      SelectIn(q, b, (idle + rest)[j]);
      SourceIn(p.ms, Speculative, n.profile, (idle + rest)[j]);
    } else {
      assert (idle + rest)[i] in idle;
      SelectIn(q, a, (idle + rest)[i]);
      SourceIn(p.ms, Idle, n.profile, (idle + rest)[i]);
    }
  }

  /** What a residual reserves in a domain: machines the gang could take there, none more than
      it needs; they cover the residual, or nothing the gang could take is left; and no
      Speculative one while an Idle one is. */
  ghost predicate ReservesFor(p: Input, n: Need, key: string, v: string, rem: ResVec, before: set<MachineId>,
                              after: set<MachineId>) {
    && before <= after
    && (forall id | id in after - before :: exists m :: CouldTake(p, n, key, v, before, m) && m.id == id)
    && Enough(p, n, key, v, rem, before, after)
    && (after != before ==> exists id :: id in after - before && !Covers(HeldAlloc(p.ms, after - before - {id}), rem))
    && IdleBefore(p, n, key, v, before, after)
  }

  ghost predicate Enough(p: Input, n: Need, key: string, v: string, rem: ResVec, before: set<MachineId>,
                   after: set<MachineId>) {
    Covers(HeldAlloc(p.ms, after - before), rem) || forall m | CouldTake(p, n, key, v, before, m) :: m.id in after
  }

  ghost predicate IdleBefore(p: Input, n: Need, key: string, v: string, before: set<MachineId>, after: set<MachineId>) {
    forall m, x | CouldTake(p, n, key, v, before, m) && CouldTake(p, n, key, v, before, x) &&
                  m.state == Idle && x.state == Speculative && x.id in after :: m.id in after
  }

  lemma PrefixReserves(p: Input, n: Need, key: string, v: string, rem: ResVec, before: set<MachineId>,
                       after: set<MachineId>, k: nat)
    requires Unique(p.ms) && PinsDistinct(n.profile)
    requires TookPrefix(Candidates(p, n, key, v, before), rem, before, after, k)
    ensures ReservesFor(p, n, key, v, rem, before, after)
  {
    var took := Candidates(p, n, key, v, before)[..k];
    PrefixUnique(p, n, key, v, before, k);
    OwnIds(took, before, after);
    IdsHeld(p.ms, took);
    TookOwn(p, n, key, v, before, took);
    if k > 0 {
      assert took[..k - 1] == Candidates(p, n, key, v, before)[..k - 1];
      LastNeeded(p, took, rem);
    }
    PrefixEnough(p, n, key, v, rem, before, after, k);
    PrefixIdle(p, n, key, v, before, after, k);
  }

  lemma OwnIds(took: seq<Machine>, before: set<MachineId>, after: set<MachineId>)
    requires after == before + IdSet(took) && forall m | m in took :: m.id !in before
    ensures after - before == IdSet(took) && (took == [] <==> after == before)
  {
    if took != [] {
      assert took[0] in took && took[0].id in IdSet(took);
    }
  }

  lemma PrefixUnique(p: Input, n: Need, key: string, v: string, before: set<MachineId>, k: nat)
    requires Unique(p.ms) && PinsDistinct(n.profile) && k <= |Candidates(p, n, key, v, before)|
    ensures var took := Candidates(p, n, key, v, before)[..k];
            Unique(took) && forall m | m in took :: CouldTake(p, n, key, v, before, m)
  {
    var all := Candidates(p, n, key, v, before);
    AcquirableUnique(p.ms, n.profile);
    SelectUnique(Available(n, key, v, before), Acquirable(p.ms, n.profile));
    forall m | m in all[..k]
      ensures CouldTake(p, n, key, v, before, m)
    {
      assert m in all;
      CandidatesIn(p, n, key, v, before, m);
    }
  }

  lemma PrefixEnough(p: Input, n: Need, key: string, v: string, rem: ResVec, before: set<MachineId>,
                     after: set<MachineId>, k: nat)
    requires TookPrefix(Candidates(p, n, key, v, before), rem, before, after, k)
    requires HeldAlloc(p.ms, after - before) == SumAlloc(Candidates(p, n, key, v, before)[..k])
    ensures Enough(p, n, key, v, rem, before, after)
  {
    var all := Candidates(p, n, key, v, before);
    if k == |all| {
      assert all[..k] == all;
      forall m | CouldTake(p, n, key, v, before, m)
        ensures m.id in after
      {
        CandidatesIn(p, n, key, v, before, m);
        assert m.id in IdSet(all);
      }
    }
  }

  lemma PrefixIdle(p: Input, n: Need, key: string, v: string, before: set<MachineId>, after: set<MachineId>, k: nat)
    requires Unique(p.ms) && k <= |Candidates(p, n, key, v, before)|
    requires after == before + IdSet(Candidates(p, n, key, v, before)[..k])
    ensures IdleBefore(p, n, key, v, before, after)
  {
    forall m, x | CouldTake(p, n, key, v, before, m) && CouldTake(p, n, key, v, before, x) &&
                  m.state == Idle && x.state == Speculative && x.id in after
      ensures m.id in after
    {
      IdleTaken(p, n, key, v, before, k, m, x);
    }
  }

  lemma TookOwn(p: Input, n: Need, key: string, v: string, before: set<MachineId>, took: seq<Machine>)
    requires forall m | m in took :: CouldTake(p, n, key, v, before, m)
    ensures forall id | id in IdSet(took) :: exists m :: CouldTake(p, n, key, v, before, m) && m.id == id
  {
  }

  lemma WithoutLast(front: seq<Machine>, last: Machine)
    requires Unique(front + [last])
    ensures IdSet(front + [last]) - {last.id} == IdSet(front)
    ensures last.id in IdSet(front + [last])
  {
    var took := front + [last];
    assert took[|front|] == last;
    forall m | m in front
      ensures m in took && m.id != last.id
    {
      var k :| 0 <= k < |front| && front[k] == m;
      assert took[k] == m;
    }
  }

  lemma LastNeeded(p: Input, took: seq<Machine>, rem: ResVec)
    requires Unique(p.ms) && Unique(took) && took != [] && forall m | m in took :: m in p.ms
    requires !Covers(SumAlloc(took[..|took| - 1]), rem)
    ensures exists id :: id in IdSet(took) && !Covers(HeldAlloc(p.ms, IdSet(took) - {id}), rem)
  {
    var front, last := took[..|took| - 1], took[|took| - 1];
    assert took == front + [last];
    IdsHeld(p.ms, front);
    WithoutLast(front, last);
  }

  lemma IdleTaken(p: Input, n: Need, key: string, v: string, before: set<MachineId>, k: nat, m: Machine, x: Machine)
    requires Unique(p.ms) && k <= |Candidates(p, n, key, v, before)|
    requires CouldTake(p, n, key, v, before, m) && CouldTake(p, n, key, v, before, x)
    requires m.state == Idle && x.state == Speculative
    requires x.id in IdSet(Candidates(p, n, key, v, before)[..k])
    ensures m.id in IdSet(Candidates(p, n, key, v, before)[..k])
  {
    var all := Candidates(p, n, key, v, before);
    CandidatesIn(p, n, key, v, before, m);
    var y :| y in all[..k] && y.id == x.id;
    CandidatesIn(p, n, key, v, before, y);
    IdFixes(p.ms, y, x);
    var j :| 0 <= j < k && all[j] == x;
    var i :| 0 <= i < |all| && all[i] == m;
    if i >= k {
      IdleFirst(p, n, key, v, before, j, i);
    }
    assert all[..k][i] == m;
  }

  /** A gang's turn: with no domain, when it is parked or left with nothing, it reserves
      nothing; otherwise its residual reserves in the domain it was given. */
  lemma Reserves(p: Input, i: nat, key: string, st: SeedState)
    requires Unique(p.ms) && i < |p.needs| && PinsDistinct(p.needs[i].profile)
    ensures var n := p.needs[i];
            var (st', rem) := SeedSame(p, i, key, st);
            if n.parked || IsZero(rem) || Choice(Stats(p, n, key, st), n.aggregate).None?
            then st'.consumed == st.consumed
            else i in st'.domain && ReservesFor(p, n, key, st'.domain[i], rem, st.consumed, st'.consumed)
  {
    var n := p.needs[i];
    match Choice(Stats(p, n, key, st), n.aggregate)
    case None => SeedSameNone(p, i, key, st);
    case Some(v) =>
      var (c, rem) := Walk(IncumbentFirst(n, Members(p, n, key, st, v)), n, RecordFor(p, i), st.claims, n.aggregate);
      var used := UsedUp(p.ms, n, key, v, rem, st.consumed);
      SeedSameSome(p, i, n, key, st, v, c, rem, Covers(StatOf(p, n, key, st, v).total, n.aggregate), used);
      if !n.parked && !IsZero(rem) {
        var k := ConsumeMeans(Candidates(p, n, key, v, st.consumed), rem, st.consumed);
        PrefixReserves(p, n, key, v, rem, st.consumed, used, k);
      }
  }

  // ---- The whole pre-pass -------------------------------------------------

  /** The state before the k-th turn. */
  ghost function StateAt(p: Input, order: seq<nat>, k: nat): SeedState
    requires InRange(p, order) && k <= |order|
  {
    SeedFold(p, order[..k], EMPTY_SEED, map[]).0
  }

  /** What the k-th turn adds to the machines spoken for. */
  ghost function Reserved(p: Input, order: seq<nat>, k: nat): set<MachineId>
    requires InRange(p, order) && k < |order|
  {
    StateAt(p, order, k + 1).consumed - StateAt(p, order, k).consumed
  }

  lemma {:induction false} FoldLast(p: Input, order: seq<nat>, i: nat, st: SeedState, res: map<nat, ResVec>)
    requires InRange(p, order) && i < |p.needs|
    ensures InRange(p, order + [i])
    ensures SeedFold(p, order + [i], st, res).0 == SeedOne(p, i, SeedFold(p, order, st, res).0).0
    decreases |order|
  {
    if order == [] {
      assert order + [i] == [i] && [i][1..] == [];
      FoldStep(p, [i], st, res);
    } else {
      assert (order + [i])[1..] == order[1..] + [i];
      FoldStep(p, order, st, res);
      FoldStep(p, order + [i], st, res);
      FoldLast(p, order[1..], i, SeedOne(p, order[0], st).0, res[order[0] := SeedOne(p, order[0], st).1]);
    }
  }

  /** Each turn continues from where the one before it ended. */
  lemma StateNext(p: Input, order: seq<nat>, k: nat)
    requires InRange(p, order) && k < |order|
    ensures StateAt(p, order, k + 1) == SeedOne(p, order[k], StateAt(p, order, k)).0
  {
    assert order[..k + 1] == order[..k] + [order[k]];
    FoldLast(p, order[..k], order[k], EMPTY_SEED, map[]);
  }

  lemma TurnSpeaks(p: Input, i: nat, st: SeedState)
    requires Unique(p.ms) && i < |p.needs| && PinsDistinct(p.needs[i].profile)
    ensures st.consumed <= SeedOne(p, i, st).0.consumed
    ensures forall id | id in SeedOne(p, i, st).0.consumed - st.consumed ::
              exists m :: m in p.ms && m.id == id && (m.state == Idle || m.state == Speculative)
  {
    match SameKey(p.needs[i].profile)
    case None =>
    case Some(key) => Reserves(p, i, key, st);
  }

  lemma {:induction false} SpokenGrows(p: Input, order: seq<nat>, a: nat, b: nat)
    requires Unique(p.ms) && InRange(p, order) && a <= b <= |order|
    requires forall n | n in p.needs :: PinsDistinct(n.profile)
    ensures StateAt(p, order, a).consumed <= StateAt(p, order, b).consumed
    decreases b
  {
    if a < b {
      SpokenGrows(p, order, a, b - 1);
      StateNext(p, order, b - 1);
      assert p.needs[order[b - 1]] in p.needs;
      TurnSpeaks(p, order[b - 1], StateAt(p, order, b - 1));
    }
  }

  /** What two gangs reserve is disjoint, and the later one does not count the earlier one's
      machines: neither among a domain's creditable members nor among its acquirable ones. */
  lemma {:induction false} ReservedApart(p: Input, order: seq<nat>, a: nat, b: nat, key: string, v: string)
    requires Unique(p.ms) && InRange(p, order) && a < b < |order|
    requires forall n | n in p.needs :: PinsDistinct(n.profile)
    ensures Reserved(p, order, a) !! Reserved(p, order, b)
    ensures var n, st := p.needs[order[b]], StateAt(p, order, b);
            forall m | m in Members(p, n, key, st, v) + Extra(p, n, key, st, v) :: m.id !in Reserved(p, order, a)
  {
    var n, st := p.needs[order[b]], StateAt(p, order, b);
    SpokenGrows(p, order, a + 1, b);
    assert p.needs[order[a]] in p.needs;
    StateNext(p, order, a);
    TurnSpeaks(p, order[a], StateAt(p, order, a));
    forall m | m in Members(p, n, key, st, v) + Extra(p, n, key, st, v)
      ensures m.id !in Reserved(p, order, a)
    {
      NotReserved(p, n, key, st, v, m, Reserved(p, order, a));
    }
  }

  lemma NotReserved(p: Input, n: Need, key: string, st: SeedState, v: string, m: Machine, spoken: set<MachineId>)
    requires Unique(p.ms) && spoken <= st.consumed
    requires forall id | id in spoken ::
               exists x :: x in p.ms && x.id == id && (x.state == Idle || x.state == Speculative)
    requires m in Members(p, n, key, st, v) + Extra(p, n, key, st, v)
    ensures m.id !in spoken
  {
    if m in Members(p, n, key, st, v) {
      SelectIn(Available(n, key, v, st.claims.Keys), Supply(p.ms, n), m);
      SupplyIn(p.ms, n, m);
      if m.id in spoken {
        var x :| x in p.ms && x.id == m.id && (x.state == Idle || x.state == Speculative);
        IdFixes(p.ms, x, m);
      }
    } else {
      SelectIn(Available(n, key, v, st.claims.Keys + st.consumed), Acquirable(p.ms, n.profile), m);
    }
  }
}
