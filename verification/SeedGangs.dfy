/** A demand of served gangs is a fixed point of the whole pre-pass. */
module SeedGangs {
  import opened Resources
  import opened Fleet
  import opened Views
  import opened Ledger
  import opened Seed
  import opened SeedSafety
  import opened SeedStability
  import opened SameChoice
  import opened SameSupply
  import opened Sequences

  /** The gang's own machines in one domain cover its demand, those of no other do. */
  ghost predicate ServedIn(p: Input, i: nat, key: string, st: SeedState, v: string)
    requires i < |p.needs|
  {
    var n := p.needs[i];
    && Own(p, n, key, st, v) != [] && Covers(SumAlloc(Own(p, n, key, st, v)), n.aggregate)
    && forall u | u in Values(p.ms, n, key) && u != v :: !Covers(SumAlloc(Own(p, n, key, st, u)), n.aggregate)
  }

  ghost predicate ServedAt(p: Input, i: nat, st: SeedState)
    requires i < |p.needs|
  {
    SameKey(p.needs[i].profile).Some? && exists v :: ServedIn(p, i, SameKey(p.needs[i].profile).value, st, v)
  }

  function Attribution(n: Need): (Profile, string) {
    (n.profile, n.group)
  }

  predicate Apart(needs: seq<Need>) {
    forall i, j | 0 <= i < |needs| && 0 <= j < |needs| && i != j :: Attribution(needs[i]) != Attribution(needs[j])
  }

  /** No two Needs share an attribution, and each is a gang its own machines serve. */
  ghost predicate AllServed(p: Input) {
    && Apart(p.needs)
    && (forall i | 0 <= i < |p.needs| :: !IsZero(p.needs[i].aggregate) && ServedAt(p, i, EMPTY_SEED))
  }

  /** Every claim so far is on a machine that carries its holder's own attribution. */
  ghost predicate OwnClaims(p: Input, done: set<nat>, c: Claims) {
    forall id | id in c :: exists m :: OwnClaim(p, done, c, id, m)
  }

  ghost predicate OwnClaim(p: Input, done: set<nat>, c: Claims, id: MachineId, m: Machine)
    requires id in c
  {
    && c[id].need in done && c[id].need < |p.needs|
    && m in Supply(p.ms, p.needs[c[id].need]) && m.id == id && OwnedBy(p.needs[c[id].need], m)
  }

  /** Two filters that agree on what a third one keeps. */
  lemma SelectAgree(q: Query, a: Query, b: Query, s: seq<Machine>)
    requires forall m | m in s && Holds(q, m) :: Holds(a, m) == Holds(b, m)
    ensures Select(q, Select(a, s)) == Select(q, Select(b, s))
  {
    if s != [] {
      assert s[0] in s && forall m | m in s[1..] :: m in s;
      SelectAgree(q, a, b, s[1..]);
      SelectTwice(q, a, s);
      SelectTwice(q, b, s);
    }
  }

  lemma SelectTwice(q: Query, a: Query, s: seq<Machine>)
    requires s != []
    ensures Select(q, Select(a, s)) ==
            if Holds(a, s[0]) && Holds(q, s[0]) then [s[0]] + Select(q, Select(a, s[1..]))
            else Select(q, Select(a, s[1..]))
  {
    if Holds(a, s[0]) {
      SelectHead(q, s[0], Select(a, s[1..]));
    }
  }

  lemma OwnUnclaimed(p: Input, done: set<nat>, i: nat, c: Claims, m: Machine)
    requires Unique(p.ms) && Apart(p.needs) && i < |p.needs| && i !in done && OwnClaims(p, done, c)
    requires m in Supply(p.ms, p.needs[i]) && OwnedBy(p.needs[i], m)
    ensures m.id !in c
  {
    if m.id in c {
      var x :| OwnClaim(p, done, c, m.id, x);
      var j := c[m.id].need;
      var mine, other := Attribution(p.needs[i]), Attribution(p.needs[j]);
      Supplied(p.ms, p.needs[i], m);
      Supplied(p.ms, p.needs[j], x);
      IdFixes(p.ms, x, m);
    }
  }

  lemma Supplied(ms: seq<Machine>, n: Need, m: Machine)
    requires m in Supply(ms, n)
    ensures m in ms
  {
    SupplyIn(ms, n, m);
  }

  /** What others have claimed does not touch a gang's own machines. */
  lemma OwnUntouched(p: Input, done: set<nat>, i: nat, key: string, st: SeedState, v: string)
    requires Unique(p.ms) && Apart(p.needs) && i < |p.needs| && i !in done && OwnClaims(p, done, st.claims)
    ensures Own(p, p.needs[i], key, st, v) == Own(p, p.needs[i], key, EMPTY_SEED, v)
  {
    var n := p.needs[i];
    forall m | m in Supply(p.ms, n) && Holds(Incumbent(n, true), m)
      ensures Holds(Available(n, key, v, st.claims.Keys), m) == Holds(Available(n, key, v, {}), m)
    {
      OwnUnclaimed(p, done, i, st.claims, m);
      UntakenAgree(n, key, v, st.claims.Keys, m);
    }
    SelectAgree(Incumbent(n, true), Available(n, key, v, st.claims.Keys), Available(n, key, v, {}), Supply(p.ms, n));
    assert EMPTY_SEED.claims.Keys == {};
  }

  lemma UntakenAgree(n: Need, key: string, v: string, taken: set<MachineId>, m: Machine)
    requires m.id !in taken
    ensures Holds(Available(n, key, v, taken), m) == Holds(Available(n, key, v, {}), m)
  {
  }

  lemma StillServed(p: Input, done: set<nat>, i: nat, key: string, st: SeedState, v: string)
    requires Unique(p.ms) && AllServed(p) && i < |p.needs| && i !in done && OwnClaims(p, done, st.claims)
    requires ServedIn(p, i, key, EMPTY_SEED, v)
    ensures ServedIn(p, i, key, st, v)
  {
    OwnUntouched(p, done, i, key, st, v);
    forall u | u in Values(p.ms, p.needs[i], key) && u != v
      ensures !Covers(SumAlloc(Own(p, p.needs[i], key, st, u)), p.needs[i].aggregate)
    {
      OwnUntouched(p, done, i, key, st, u);
    }
  }

  /** One turn: nothing is left over, and only own machines are claimed. */
  lemma GangTurn(p: Input, done: set<nat>, i: nat, st: SeedState)
    requires Unique(p.ms) && AllServed(p) && i < |p.needs| && i !in done && OwnClaims(p, done, st.claims)
    ensures var (st', rem) := SeedOne(p, i, st);
            IsZero(rem) && st'.consumed == st.consumed && OwnClaims(p, done + {i}, st'.claims)
  {
    assert ServedAt(p, i, EMPTY_SEED);
    var key := SameKey(p.needs[i].profile).value;
    var v :| ServedIn(p, i, key, EMPTY_SEED, v);
    StillServed(p, done, i, key, st, v);
    ServedGang(p, i, key, st, v);
    GangClaims(p, done, i, key, st, v);
  }

  lemma GangClaims(p: Input, done: set<nat>, i: nat, key: string, st: SeedState, v: string)
    requires i < |p.needs| && i !in done && OwnClaims(p, done, st.claims)
    requires var st' := SeedSame(p, i, key, st).0;
             Grows(st.claims, st'.claims, RecordFor(p, i)) &&
             forall id | id in st'.claims && id !in st.claims ::
               exists m :: m in Supply(p.ms, p.needs[i]) && m.id == id && OwnedBy(p.needs[i], m) &&
                           Lookup(key, m) == Some(v)
    ensures OwnClaims(p, done + {i}, SeedSame(p, i, key, st).0.claims)
  {
    var c := SeedSame(p, i, key, st).0.claims;
    forall id | id in c
      ensures exists m :: OwnClaim(p, done + {i}, c, id, m)
    {
      if id in st.claims {
        var m :| OwnClaim(p, done, st.claims, id, m);
        assert OwnClaim(p, done + {i}, c, id, m);
      } else {
        var m :| m in Supply(p.ms, p.needs[i]) && m.id == id && OwnedBy(p.needs[i], m) && Lookup(key, m) == Some(v);
        assert OwnClaim(p, done + {i}, c, id, m);
      }
    }
  }

  predicate NothingShort(res: map<nat, ResVec>) {
    forall i | i in res :: IsZero(res[i])
  }

  lemma {:induction false} GangFold(p: Input, order: seq<nat>, done: set<nat>, st: SeedState, res: map<nat, ResVec>)
    requires Unique(p.ms) && AllServed(p) && InRange(p, order) && Distinct(order)
    requires forall i | i in order :: i !in done
    requires OwnClaims(p, done, st.claims) && NothingShort(res)
    ensures OwnClaims(p, done + (set i | i in order), SeedFold(p, order, st, res).0.claims)
    ensures SeedFold(p, order, st, res).0.consumed == st.consumed && NothingShort(SeedFold(p, order, st, res).1)
    decreases |order|
  {
    if order == [] {
      assert done + (set i | i in order) == done;
    } else {
      var i, rest := order[0], order[1..];
      var (st', rem) := SeedOne(p, i, st);
      RestDistinct(order, done);
      GangTurn(p, done, i, st);
      FoldStep(p, order, st, res);
      GangFold(p, rest, done + {i}, st', res[i := rem]);
    }
  }

  /** The machine belongs to its holder: it is in its supply and carries its attribution. */
  ghost predicate OnOwn(p: Input, c: Claims, id: MachineId)
    requires id in c
  {
    c[id].need < |p.needs| &&
    exists m :: m in Supply(p.ms, p.needs[c[id].need]) && m.id == id && OwnedBy(p.needs[c[id].need], m)
  }

  lemma OwnAll(p: Input, done: set<nat>, c: Claims)
    requires OwnClaims(p, done, c)
    ensures forall id | id in c :: OnOwn(p, c, id)
  {
    forall id | id in c
      ensures OnOwn(p, c, id)
    {
      var m :| OwnClaim(p, done, c, id, m);
    }
  }

  /** Gangs that their own machines serve are all covered by the pre-pass, which claims
      nothing but those machines and speaks for no acquirable one. */
  lemma GangsServed(p: Input, order: seq<nat>)
    requires Unique(p.ms) && AllServed(p) && InRange(p, order) && Distinct(order)
    ensures forall id | id in Seeded(p, order).0.claims :: OnOwn(p, Seeded(p, order).0.claims, id)
    ensures Seeded(p, order).0.consumed == {} && NothingShort(Seeded(p, order).1)
  {
    GangFold(p, order, {}, EMPTY_SEED, map[]);
    OwnAll(p, {} + (set i | i in order), Seeded(p, order).0.claims);
  }

  // ---- Giving back the unclaimed changes nothing here, either -------------

  /** A walk that ends with nothing left has covered the demand. */
  lemma {:induction false} WalkNeeds(s: seq<Machine>, n: Need, record: Claim, c: Claims, rem: ResVec)
    requires IsZero(Walk(s, n, record, c, rem).1)
    ensures Covers(SumAlloc(s), rem)
    decreases |s|, 0
  {
    if s == [] || IsZero(rem) {
      WalkDone(s, n, record, c, rem);
      ZeroCovered(SumAlloc(s), rem);
    } else {
      assert s == [s[0]] + s[1..];
      HeadNeeds(s[0], s[1..], n, record, c, rem);
    }
  }

  lemma {:induction false} HeadNeeds(m: Machine, t: seq<Machine>, n: Need, record: Claim, c: Claims, rem: ResVec)
    requires !IsZero(rem) && IsZero(Walk([m] + t, n, record, c, rem).1)
    ensures Covers(SumAlloc([m] + t), rem)
    decreases |t|, 1
  {
    if m.id !in c && Fits(n, m) {
      WalkTake(m, t, n, record, c, rem);
      WalkNeeds(t, n, record, c[m.id := record], Sub(rem, Alloc(m)));
      TakenCovers(m, t, rem);
    } else {
      WalkSkip(m, t, n, record, c, rem);
      WalkNeeds(t, n, record, c, rem);
      SkippedCovers(m, t, rem);
    }
  }

  lemma ZeroCovered(have: ResVec, want: ResVec)
    requires IsZero(want)
    ensures Covers(have, want)
  {
    assert forall d | d in want :: want[d] == 0;
  }

  lemma TakenCovers(m: Machine, t: seq<Machine>, want: ResVec)
    requires Covers(SumAlloc(t), Sub(want, Alloc(m)))
    ensures Covers(SumAlloc([m] + t), want)
  {
    SumHead(m, t);
    forall d | d in want
      ensures want[d] <= Qty(Add(Alloc(m), SumAlloc(t)), d)
    {
      assert Sub(want, Alloc(m))[d] <= Qty(SumAlloc(t), d);
    }
  }

  lemma SkippedCovers(m: Machine, t: seq<Machine>, want: ResVec)
    requires Covers(SumAlloc(t), want)
    ensures Covers(SumAlloc([m] + t), want)
  {
    SumHead(m, t);
    CoversMore(Add(Alloc(m), SumAlloc(t)), SumAlloc(t), want);
  }

  lemma MembersWithout(p: Input, q: Input, n: Need, key: string, st: SeedState, v: string, gone: set<MachineId>)
    requires GaveBack(p.ms, q.ms, gone)
    ensures Members(q, n, key, st, v) == Select(Without(gone), Members(p, n, key, st, v))
    ensures Own(q, n, key, st, v) == Select(Without(gone), Own(p, n, key, st, v))
    ensures IncumbentFirst(n, Members(q, n, key, st, v)) ==
            Select(Without(gone), IncumbentFirst(n, Members(p, n, key, st, v)))
  {
    var w, members := Without(gone), Members(p, n, key, st, v);
    SupplyWithout(p.ms, q.ms, n, gone);
    SelectSwap(Available(n, key, v, st.claims.Keys), w, Supply(p.ms, n));
    SelectSwap(Incumbent(n, true), w, members);
    SelectSwap(Incumbent(n, false), w, members);
    SelectConcat(w, Select(Incumbent(n, true), members), Select(Incumbent(n, false), members));
  }

  lemma OwnValue(p: Input, n: Need, key: string, st: SeedState, u: string)
    requires Own(p, n, key, st, u) != []
    ensures u in Values(p.ms, n, key)
  {
    var m := Own(p, n, key, st, u)[0];
    OwnIn(p, n, key, st, u, m);
    assert m in Supply(p.ms, n) + Acquirable(p.ms, n.profile);
  }

  lemma OthersShort(p: Input, q: Input, i: nat, key: string, st: SeedState, v: string, gone: set<MachineId>, u: string)
    requires i < |p.needs| && q == p.(ms := q.ms) && GaveBack(p.ms, q.ms, gone)
    requires ServedIn(p, i, key, st, v) && !IsZero(p.needs[i].aggregate) && u != v
    ensures !Covers(SumAlloc(Own(q, p.needs[i], key, st, u)), p.needs[i].aggregate)
  {
    var n := p.needs[i];
    MembersWithout(p, q, n, key, st, u, gone);
    var own := Own(p, n, key, st, u);
    if u in Values(p.ms, n, key) {
      if Covers(SumAlloc(Select(Without(gone), own)), n.aggregate) {
        forall d
          ensures Qty(SumAlloc(Select(Without(gone), own)), d) <= Qty(SumAlloc(own), d)
        {
          SelectSum(Without(gone), own, d);
        }
        CoversMore(SumAlloc(own), SumAlloc(Select(Without(gone), own)), n.aggregate);
      }
    } else {
      if own != [] {
        OwnValue(p, n, key, st, u);
      }
      var d :| d in n.aggregate && n.aggregate[d] != 0;
      assert Qty(map[], d) == 0;
    }
  }

  /** The own machines of the walk, which is over before it reaches any other. */
  lemma OwnWalk(p: Input, i: nat, key: string, st: SeedState, v: string)
    requires Unique(p.ms) && i < |p.needs| && ServedIn(p, i, key, st, v)
    ensures var n := p.needs[i];
            var w := Walk(Own(p, n, key, st, v), n, RecordFor(p, i), st.claims, n.aggregate);
            && IsZero(w.1)
            && Walk(IncumbentFirst(n, Members(p, n, key, st, v)), n, RecordFor(p, i), st.claims, n.aggregate) == w
  {
    var n := p.needs[i];
    var own, rest := Own(p, n, key, st, v), Select(Incumbent(n, false), Members(p, n, key, st, v));
    OwnFree(p, n, key, st, v);
    WalkCovers(own, n, RecordFor(p, i), st.claims, n.aggregate);
    WalkConcat(own, rest, n, RecordFor(p, i), st.claims, n.aggregate);
  }

  /** What a served gang's turn comes to. */
  lemma ServedTurn(p: Input, i: nat, key: string, st: SeedState, v: string)
    requires Unique(p.ms) && i < |p.needs| && ServedIn(p, i, key, st, v)
    ensures var n := p.needs[i];
            var w := Walk(Own(p, n, key, st, v), n, RecordFor(p, i), st.claims, n.aggregate);
            SeedSame(p, i, key, st) ==
            (SeedState(w.0, st.domain[i := v], st.satisfiable[i := true], st.consumed), w.1)
  {
    var n := p.needs[i];
    OwnChosen(p, n, key, st, v);
    OwnCovers(p, n, key, st, v);
    OwnWalk(p, i, key, st, v);
    var (c, rem) := Walk(Own(p, n, key, st, v), n, RecordFor(p, i), st.claims, n.aggregate);
    SeedSameSome(p, i, n, key, st, v, c, rem, true, st.consumed);
  }

  lemma ServedWithout(p: Input, q: Input, i: nat, key: string, st: SeedState, v: string, gone: set<MachineId>)
    requires Unique(p.ms) && i < |p.needs| && q == p.(ms := q.ms) && GaveBack(p.ms, q.ms, gone)
    requires ServedIn(p, i, key, st, v) && !IsZero(p.needs[i].aggregate)
    requires SeedSame(p, i, key, st).0.claims.Keys !! gone
    ensures ServedIn(q, i, key, st, v)
    ensures var n := p.needs[i];
            Walk(Own(q, n, key, st, v), n, RecordFor(p, i), st.claims, n.aggregate) ==
            Walk(Own(p, n, key, st, v), n, RecordFor(p, i), st.claims, n.aggregate)
  {
    var n := p.needs[i];
    var own := Own(p, n, key, st, v);
    ServedTurn(p, i, key, st, v);
    OwnWalk(p, i, key, st, v);
    MembersWithout(p, q, n, key, st, v, gone);
    WalkWithout(own, n, RecordFor(p, i), st.claims, n.aggregate, gone);
    WalkNeeds(Select(Without(gone), own), n, RecordFor(p, i), st.claims, n.aggregate);
    CoversSome(Own(q, n, key, st, v), n.aggregate);
    forall u | u in Values(q.ms, n, key) && u != v
      ensures !Covers(SumAlloc(Own(q, n, key, st, u)), n.aggregate)
    {
      OthersShort(p, q, i, key, st, v, gone, u);
    }
  }

  lemma CoversSome(s: seq<Machine>, want: ResVec)
    requires Covers(SumAlloc(s), want) && !IsZero(want)
    ensures s != []
  {
    var d :| d in want && want[d] != 0;
    assert want[d] <= Qty(SumAlloc(s), d);
    assert Qty(map[], d) == 0;
  }

  lemma TurnWithout(p: Input, q: Input, done: set<nat>, i: nat, st: SeedState, gone: set<MachineId>)
    requires Unique(p.ms) && Unique(q.ms) && AllServed(p) && q == p.(ms := q.ms) && GaveBack(p.ms, q.ms, gone)
    requires i < |p.needs| && i !in done && OwnClaims(p, done, st.claims)
    requires SeedOne(p, i, st).0.claims.Keys !! gone
    ensures SeedOne(q, i, st) == SeedOne(p, i, st)
  {
    assert ServedAt(p, i, EMPTY_SEED);
    var key := SameKey(p.needs[i].profile).value;
    var v :| ServedIn(p, i, key, EMPTY_SEED, v);
    StillServed(p, done, i, key, st, v);
    ServedWithout(p, q, i, key, st, v, gone);
    ServedTurn(p, i, key, st, v);
    ServedTurn(q, i, key, st, v);
  }

  lemma {:induction false} GangFoldWithout(p: Input, q: Input, order: seq<nat>, done: set<nat>, st: SeedState,
                                           res: map<nat, ResVec>, gone: set<MachineId>)
    requires Unique(p.ms) && Unique(q.ms) && AllServed(p) && q == p.(ms := q.ms) && GaveBack(p.ms, q.ms, gone)
    requires InRange(p, order) && Distinct(order) && forall i | i in order :: i !in done
    requires OwnClaims(p, done, st.claims)
    requires SeedFold(p, order, st, res).0.claims.Keys !! gone
    ensures SeedFold(q, order, st, res) == SeedFold(p, order, st, res)
    decreases |order|
  {
    if order != [] {
      var i, rest := order[0], order[1..];
      var (st', rem) := SeedOne(p, i, st);
      RestDistinct(order, done);
      GangTurn(p, done, i, st);
      FoldStep(p, order, st, res);
      FoldStep(q, order, st, res);
      AnyGrows(p, rest, st', res[i := rem]);
      TurnWithout(p, q, done, i, st, gone);
      GangFoldWithout(p, q, rest, done + {i}, st', res[i := rem], gone);
    }
  }

  lemma {:induction false} AnyGrows(p: Input, order: seq<nat>, st: SeedState, res: map<nat, ResVec>)
    requires Unique(p.ms) && InRange(p, order)
    ensures st.claims.Keys <= SeedFold(p, order, st, res).0.claims.Keys
    decreases |order|
  {
    if order != [] {
      var (st', rem) := SeedOne(p, order[0], st);
      AnyTurn(p, order[0], st);
      FoldStep(p, order, st, res);
      AnyGrows(p, order[1..], st', res[order[0] := rem]);
    }
  }

  /** Served gangs stay served: with any unclaimed machines given back, and whatever
      acquirable supply comes or goes, the pre-pass does the same all over again. */
  lemma GangsRepeat(p: Input, q: Input, order: seq<nat>, gone: set<MachineId>)
    requires Unique(p.ms) && Unique(q.ms) && AllServed(p) && InRange(p, order) && Distinct(order)
    requires q == p.(ms := q.ms) && GaveBack(p.ms, q.ms, gone) && Seeded(p, order).0.claims.Keys !! gone
    ensures Seeded(q, order) == Seeded(p, order)
  {
    GangFoldWithout(p, q, order, {}, EMPTY_SEED, map[], gone);
  }
}
