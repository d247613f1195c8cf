/** What a gang's domain is chosen by: its statistics against the fleet itself. */
module SeedStats {
  import opened Resources
  import opened Fleet
  import opened Views
  import opened Ledger
  import opened Cycle
  import opened SameSupply
  import opened SameChoice
  import opened Seed
  import opened SeedStability
  import opened SeedReserve

  /** A machine the gang could be credited with: bound to its cluster or being created for it,
      hosting a unit, and nobody's yet. */
  predicate MayCredit(p: Input, n: Need, key: string, c: Claims, v: string, m: Machine) {
    && m in p.ms && m.id !in c && Fits(n, m) && Lookup(key, m) == Some(v)
    && ((n.cluster != "" && m.cluster == n.cluster && (m.state == Configured || m.state == Configuring)) ||
        (m.state == Creating && m.assignedProfile == Some(n.profile) && m.assignedGroup == n.group))
  }

  function CreditIds(p: Input, n: Need, key: string, c: Claims, v: string): set<MachineId> {
    set m | m in p.ms && MayCredit(p, n, key, c, v, m) :: m.id
  }

  function OwnIds(p: Input, n: Need, key: string, c: Claims, v: string): set<MachineId> {
    set m | m in p.ms && MayCredit(p, n, key, c, v, m) && OwnedBy(n, m) :: m.id
  }

  /** What it could acquire: nothing when parked. */
  function FreeIds(p: Input, n: Need, key: string, st: SeedState, v: string): set<MachineId> {
    set m | m in p.ms && !n.parked && CouldTake(p, n, key, v, st.claims.Keys + st.consumed, m) :: m.id
  }

  lemma {:induction false} IdsCount(s: seq<Machine>)
    requires Unique(s)
    ensures |IdSet(s)| == |s|
    decreases |s|
  {
    if s == [] {
      assert IdSet(s) == {};
    } else {
      var front, last := s[..|s| - 1], s[|s| - 1];
      assert s == front + [last];
      FrontUnique(front, last);
      IdsCount(front);
      IdSetLast(front, last);
    }
  }

  lemma MembersAre(p: Input, n: Need, key: string, st: SeedState, v: string)
    requires Unique(p.ms) && SameKey(n.profile) == Some(key)
    ensures Unique(Members(p, n, key, st, v)) && forall m | m in Members(p, n, key, st, v) :: m in p.ms
    ensures forall m :: m in Members(p, n, key, st, v) <==> MayCredit(p, n, key, st.claims, v, m)
    ensures IdSet(Members(p, n, key, st, v)) == CreditIds(p, n, key, st.claims, v)
  {
    SupplyUnique(p.ms, n);
    SelectUnique(Available(n, key, v, st.claims.Keys), Supply(p.ms, n));
    forall m
      ensures m in Members(p, n, key, st, v) <==> MayCredit(p, n, key, st.claims, v, m)
    {
      SelectIn(Available(n, key, v, st.claims.Keys), Supply(p.ms, n), m);
      SupplyIn(p.ms, n, m);
    }
  }

  lemma OwnAre(p: Input, n: Need, key: string, st: SeedState, v: string)
    requires Unique(p.ms) && SameKey(n.profile) == Some(key)
    ensures var own := Select(Incumbent(n, true), Members(p, n, key, st, v));
            && Unique(own) && (forall m | m in own :: m in p.ms)
            && IdSet(own) == OwnIds(p, n, key, st.claims, v)
  {
    var members := Members(p, n, key, st, v);
    MembersAre(p, n, key, st, v);
    SelectUnique(Incumbent(n, true), members);
    forall m
      ensures m in Select(Incumbent(n, true), members) <==> MayCredit(p, n, key, st.claims, v, m) && OwnedBy(n, m)
    {
      SelectIn(Incumbent(n, true), members, m);
    }
  }

  lemma ExtraAre(p: Input, n: Need, key: string, st: SeedState, v: string)
    requires Unique(p.ms) && PinsDistinct(n.profile)
    ensures Unique(Extra(p, n, key, st, v)) && forall m | m in Extra(p, n, key, st, v) :: m in p.ms
    ensures IdSet(Extra(p, n, key, st, v)) == FreeIds(p, n, key, st, v)
  {
    if !n.parked {
      AcquirableUnique(p.ms, n.profile);
      SelectUnique(Available(n, key, v, st.claims.Keys + st.consumed), Acquirable(p.ms, n.profile));
      forall m
        ensures m in Extra(p, n, key, st, v) <==> CouldTake(p, n, key, v, st.claims.Keys + st.consumed, m)
      {
        CandidatesIn(p, n, key, v, st.claims.Keys + st.consumed, m);
      }
    }
  }

  /** A domain is weighed by every machine of the fleet the gang could be credited with or
      acquire there, each once: how many, what they hold together, and of that what could be
      credited and what is the gang's own. */
  lemma StatsAre(p: Input, n: Need, key: string, st: SeedState, v: string)
    requires Unique(p.ms) && SameKey(n.profile) == Some(key) && PinsDistinct(n.profile)
    ensures var s := StatOf(p, n, key, st, v);
            var credit, free := CreditIds(p, n, key, st.claims, v), FreeIds(p, n, key, st, v);
            && s.count == |credit| + |free|
            && s.total == Add(HeldAlloc(p.ms, credit), HeldAlloc(p.ms, free))
            && s.cred == HeldAlloc(p.ms, credit)
            && s.own == HeldAlloc(p.ms, OwnIds(p, n, key, st.claims, v))
  {
    var cred, extra := Members(p, n, key, st, v), Extra(p, n, key, st, v);
    MembersAre(p, n, key, st, v);
    OwnAre(p, n, key, st, v);
    ExtraAre(p, n, key, st, v);
    IdsCount(cred);
    IdsCount(extra);
    IdsHeld(p.ms, cred);
    IdsHeld(p.ms, extra);
    IdsHeld(p.ms, Select(Incumbent(n, true), cred));
  }
}
