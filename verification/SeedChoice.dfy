/** What a gang's domain depends on: the supply it could be credited with or acquire. */
module SeedChoice {
  import opened Resources
  import opened Fleet
  import opened Views
  import opened Ledger
  import opened SameSupply
  import opened SameChoice
  import opened SameRule
  import opened Seed
  import opened SeedStability
  import opened SeedTail

  /** The free supply a gang weighs for a domain. */
  function Supplied(p: Input, n: Need, key: string, st: SeedState, v: string): seq<Machine> {
    Members(p, n, key, st, v) + Extra(p, n, key, st, v)
  }

  /** A domain that the free supply covers the demand in. */
  predicate CoveredIn(p: Input, n: Need, key: string, st: SeedState, v: string) {
    && v in Values(p.ms, n, key) && Supplied(p, n, key, st, v) != []
    && Covers(Add(SumAlloc(Members(p, n, key, st, v)), SumAlloc(Extra(p, n, key, st, v))), n.aggregate)
  }

  /** A gang is recorded satisfiable exactly when some domain's free supply covers it. */
  lemma SatisfiableExactly(p: Input, i: nat, key: string, st: SeedState)
    requires i < |p.needs| && Choice(Stats(p, p.needs[i], key, st), p.needs[i].aggregate).Some?
    ensures var st' := SeedSame(p, i, key, st).0;
            && i in st'.satisfiable && i in st'.domain
            && (st'.satisfiable[i] <==> exists v :: CoveredIn(p, p.needs[i], key, st, v))
            && (st'.satisfiable[i] ==> CoveredIn(p, p.needs[i], key, st, st'.domain[i]))
  {
    var n := p.needs[i];
    var stats := Stats(p, n, key, st);
    var v := Choice(stats, n.aggregate).value;
    CoveringChoice(stats, n.aggregate, v);
    var (c, rem) := Walk(IncumbentFirst(n, Members(p, n, key, st, v)), n, RecordFor(p, i), st.claims, n.aggregate);
    SeedSameSome(p, i, n, key, st, v, c, rem, Covers(StatOf(p, n, key, st, v).total, n.aggregate),
                 UsedUp(p.ms, n, key, v, rem, st.consumed));
    forall u
      ensures CoveredIn(p, n, key, st, u) <==> u in stats && stats[u].count > 0 && Covers(stats[u].total, n.aggregate)
    {
    }
  }

  /** The two statistics agree on the domains that hold a machine. */
  predicate SameHeld(a: map<string, Stat>, b: map<string, Stat>) {
    && (forall v | v in a && a[v].count > 0 :: v in b && b[v] == a[v])
    && (forall v | v in b && b[v].count > 0 :: v in a && a[v] == b[v])
  }

  lemma BestHeld(a: map<string, Stat>, b: map<string, Stat>, deficit: ResVec, v: string)
    requires SameHeld(a, b) && IsBest(a, deficit, v)
    ensures IsBest(b, deficit, v)
  {
  }

  lemma ChoiceHeld(a: map<string, Stat>, b: map<string, Stat>, deficit: ResVec)
    requires SameHeld(a, b)
    ensures Choice(a, deficit) == Choice(b, deficit)
  {
    if v :| IsBest(a, deficit, v) {
      BestHeld(a, b, deficit, v);
      ChoiceIs(a, deficit, v);
      ChoiceIs(b, deficit, v);
    } else if v :| IsBest(b, deficit, v) {
      BestHeld(b, a, deficit, v);
      ChoiceIs(b, deficit, v);
    }
  }

  lemma SameCreditable(ms: seq<Machine>, ms2: seq<Machine>, q: Query)
    requires Select(Creditable, ms) == Select(Creditable, ms2) && forall m :: Holds(q, m) ==> Holds(Creditable, m)
    ensures Select(q, ms) == Select(q, ms2)
  {
    SelectThrough(q, Creditable, ms);
    SelectThrough(q, Creditable, ms2);
  }

  lemma SameSupplyOf(ms: seq<Machine>, ms2: seq<Machine>, n: Need)
    requires Select(Creditable, ms) == Select(Creditable, ms2)
    ensures Supply(ms, n) == Supply(ms2, n)
  {
    SameCreditable(ms, ms2, Bound(n.cluster, Configured));
    SameCreditable(ms, ms2, Bound(n.cluster, Configuring));
    SameCreditable(ms, ms2, InFlightFor(n, SameKey(n.profile).Some?));
  }

  /** A domain that holds a member is one of the values. */
  lemma MemberValue(p: Input, n: Need, key: string, st: SeedState, v: string)
    requires Members(p, n, key, st, v) != []
    ensures v in Values(p.ms, n, key)
  {
    var m := Members(p, n, key, st, v)[0];
    assert m in Members(p, n, key, st, v);
    SelectIn(Available(n, key, v, st.claims.Keys), Supply(p.ms, n), m);
    assert m in Supply(p.ms, n) + Acquirable(p.ms, n.profile);
  }

  /** Parked means parked: a parked gang's turn is the same whatever acquirable supply there
      is, in this domain or any other. */
  lemma ParkedTurn(p: Input, q: Input, i: nat, key: string, st: SeedState)
    requires i < |p.needs| && p.needs[i].parked && q == p.(ms := q.ms)
    requires Select(Creditable, p.ms) == Select(Creditable, q.ms)
    ensures SeedSame(q, i, key, st) == SeedSame(p, i, key, st)
  {
    var n := p.needs[i];
    SameSupplyOf(p.ms, q.ms, n);
    forall v
      ensures Members(p, n, key, st, v) != [] ==> v in Values(p.ms, n, key) && v in Values(q.ms, n, key)
    {
      if Members(p, n, key, st, v) != [] {
        MemberValue(p, n, key, st, v);
        MemberValue(q, n, key, st, v);
      }
    }
    ChoiceHeld(Stats(p, n, key, st), Stats(q, n, key, st), n.aggregate);
    match Choice(Stats(p, n, key, st), n.aggregate)
    case None =>
      SeedSameNone(p, i, key, st);
      SeedSameNone(q, i, key, st);
    case Some(v) =>
      var (c, rem) := Walk(IncumbentFirst(n, Members(p, n, key, st, v)), n, RecordFor(p, i), st.claims, n.aggregate);
      var sat := Covers(StatOf(p, n, key, st, v).total, n.aggregate);
      SeedSameSome(p, i, n, key, st, v, c, rem, sat, st.consumed);
      SeedSameSome(q, i, n, key, st, v, c, rem, sat, st.consumed);
  }

  /** A gang takes what its domain has: where it ends short, every machine of its supply that
      was free in its domain and fits it is claimed; and it takes a machine that is not its
      own only once all its own there are claimed. */
  lemma GangTakes(p: Input, i: nat, key: string, st: SeedState, v: string)
    requires Unique(p.ms) && i < |p.needs|
    requires Choice(Stats(p, p.needs[i], key, st), p.needs[i].aggregate) == Some(v)
    ensures var n := p.needs[i];
            var (st', rem) := SeedSame(p, i, key, st);
            && (!IsZero(rem) ==> forall m | m in Members(p, n, key, st, v) :: m.id in st'.claims)
            && (forall a, b | a in Members(p, n, key, st, v) && b in Members(p, n, key, st, v) &&
                              !OwnedBy(n, a) && OwnedBy(n, b) && a.id in st'.claims :: b.id in st'.claims)
  {
    var n := p.needs[i];
    var members := Members(p, n, key, st, v);
    var (c, rem) := Walk(IncumbentFirst(n, members), n, RecordFor(p, i), st.claims, n.aggregate);
    SeedSameSome(p, i, n, key, st, v, c, rem, Covers(StatOf(p, n, key, st, v).total, n.aggregate),
                 UsedUp(p.ms, n, key, v, rem, st.consumed));
    if !IsZero(rem) {
      forall m | m in members
        ensures m.id in c
      {
        MemberTaken(p, i, key, st, v, m);
      }
    }
    forall a, b | a in members && b in members && !OwnedBy(n, a) && OwnedBy(n, b) && a.id in c
      ensures b.id in c
    {
      OwnBefore(p, i, key, st, v, a, b);
    }
  }

  lemma MemberWalks(p: Input, n: Need, key: string, st: SeedState, v: string, m: Machine)
    requires m in Members(p, n, key, st, v)
    ensures m in IncumbentFirst(n, Members(p, n, key, st, v)) && Fits(n, m)
  {
    SelectIn(Available(n, key, v, st.claims.Keys), Supply(p.ms, n), m);
    MembersIn(p, n, key, st, v, m);
  }

  lemma MemberTaken(p: Input, i: nat, key: string, st: SeedState, v: string, m: Machine)
    requires i < |p.needs| && m in Members(p, p.needs[i], key, st, v)
    requires var n := p.needs[i];
             !IsZero(Walk(IncumbentFirst(n, Members(p, n, key, st, v)), n, RecordFor(p, i), st.claims, n.aggregate).1)
    ensures var n := p.needs[i];
            m.id in Walk(IncumbentFirst(n, Members(p, n, key, st, v)), n, RecordFor(p, i), st.claims, n.aggregate).0
  {
    var n := p.needs[i];
    MemberWalks(p, n, key, st, v, m);
    WalkExhausts(IncumbentFirst(n, Members(p, n, key, st, v)), n, RecordFor(p, i), st.claims, n.aggregate, m);
  }

  lemma OwnBefore(p: Input, i: nat, key: string, st: SeedState, v: string, a: Machine, b: Machine)
    requires Unique(p.ms) && i < |p.needs| && !OwnedBy(p.needs[i], a) && OwnedBy(p.needs[i], b)
    requires a in Members(p, p.needs[i], key, st, v) && b in Members(p, p.needs[i], key, st, v)
    requires var n := p.needs[i];
             a.id in Walk(IncumbentFirst(n, Members(p, n, key, st, v)), n, RecordFor(p, i), st.claims, n.aggregate).0
    ensures var n := p.needs[i];
            b.id in Walk(IncumbentFirst(n, Members(p, n, key, st, v)), n, RecordFor(p, i), st.claims, n.aggregate).0
  {
    var n := p.needs[i];
    var own, others := OwnPart(p, n, key, st, v), OtherPart(p, n, key, st, v);
    InParts(p, n, key, st, v, a);
    InParts(p, n, key, st, v, b);
    PartsUnique(p, n, key, st, v);
    WalkPrefers(own, others, n, RecordFor(p, i), st.claims, n.aggregate, b, a);
  }

  function OwnPart(p: Input, n: Need, key: string, st: SeedState, v: string): seq<Machine> {
    Select(Incumbent(n, true), Members(p, n, key, st, v))
  }

  function OtherPart(p: Input, n: Need, key: string, st: SeedState, v: string): seq<Machine> {
    Select(Incumbent(n, false), Members(p, n, key, st, v))
  }

  lemma InParts(p: Input, n: Need, key: string, st: SeedState, v: string, m: Machine)
    requires m in Members(p, n, key, st, v)
    ensures if OwnedBy(n, m) then m in OwnPart(p, n, key, st, v) else m in OtherPart(p, n, key, st, v)
    ensures m.id !in st.claims && Fits(n, m)
  {
    SelectIn(Available(n, key, v, st.claims.Keys), Supply(p.ms, n), m);
    SelectIn(Incumbent(n, OwnedBy(n, m)), Members(p, n, key, st, v), m);
  }

  lemma PartsUnique(p: Input, n: Need, key: string, st: SeedState, v: string)
    requires Unique(p.ms)
    ensures IncumbentFirst(n, Members(p, n, key, st, v)) == OwnPart(p, n, key, st, v) + OtherPart(p, n, key, st, v)
    ensures Unique(OwnPart(p, n, key, st, v) + OtherPart(p, n, key, st, v))
  {
    var members := Members(p, n, key, st, v);
    SupplyUnique(p.ms, n);
    SelectUnique(Available(n, key, v, st.claims.Keys), Supply(p.ms, n));
    SelectUnique(Incumbent(n, true), members);
    SelectUnique(Incumbent(n, false), members);
    forall x, y | x in Select(Incumbent(n, true), members) && y in Select(Incumbent(n, false), members)
      ensures x.id != y.id
    {
      SelectIn(Incumbent(n, true), members, x);
      SelectIn(Incumbent(n, false), members, y);
      if x.id == y.id {
        IdFixes(members, x, y);
      }
    }
    UniqueConcat(Select(Incumbent(n, true), members), Select(Incumbent(n, false), members));
  }
}
