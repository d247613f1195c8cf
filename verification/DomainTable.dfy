/** The per-domain table the pre-pass fills for one Same Need: creditable machines one by
    one, then the acquirable totals in any order; it lists the statistics the domain
    choice is made over. */
module DomainTable {
  import opened Resources
  import opened Fleet
  import opened Views
  import opened Inventory
  import opened SameBucket
  import opened SameSupply
  import opened SameChoice
  import opened Seed
  import opened Sequences

  datatype Table = Table(at: map<string, nat>, buckets: seq<Bucket>, members: seq<seq<Machine>>)

  const EMPTY := Table(map[], [], [])

  /** Opens a domain's row on first sight. */
  function Touch(t: Table, v: string): Table {
    if v in t.at then t
    else Table(t.at[v := |t.buckets|], t.buckets + [Bucket(v, 0, [], [], [])], t.members + [[]])
  }

  ghost predicate Shape(t: Table) {
    && |t.members| == |t.buckets|
    && (forall v | v in t.at :: t.at[v] < |t.buckets| && t.buckets[t.at[v]].value == v)
    && (forall j | 0 <= j < |t.buckets| :: t.buckets[j].value in t.at && t.at[t.buckets[j].value] == j)
  }

  function AddCredit(t: Table, v: string, m: Machine, vec: seq<nat>, own: bool): Table
    requires Shape(t) && v in t.at
  {
    var j := t.at[v];
    var b := t.buckets[j];
    t.(buckets := t.buckets[j := Bucket(v, b.count + 1, VecSum(b.total, vec), VecSum(b.cred, vec),
                                        if own then VecSum(b.own, vec) else b.own)],
       members := t.members[j := t.members[j] + [m]])
  }

  function AddTotal(t: Table, v: string, b: Bucket): Table
    requires Shape(t) && v in t.at
  {
    var j := t.at[v];
    t.(buckets := t.buckets[j := t.buckets[j].(count := t.buckets[j].count + b.count,
                                               total := VecSum(t.buckets[j].total, b.total))])
  }

  function CredStat(n: Need, row: seq<Machine>): Stat {
    Stat(|row|, SumAlloc(row), SumAlloc(row), SumAlloc(Select(Incumbent(n, true), row)))
  }

  function WithExtra(s: Stat, extra: seq<Machine>): Stat {
    s.(count := s.count + |extra|, total := Add(s.total, SumAlloc(extra)))
  }

  function StatFor(n: Need, row: seq<Machine>, extra: Option<seq<Machine>>): Stat {
    if extra.Some? then WithExtra(CredStat(n, row), extra.value) else CredStat(n, row)
  }

  function Folded(extras: map<string, seq<Machine>>, v: string): Option<seq<Machine>> {
    if v in extras then Some(extras[v]) else None
  }

  predicate FreeFor(n: Need, key: string, claimed: set<MachineId>, m: Machine) {
    m.id !in claimed && Fits(n, m) && Lookup(key, m).Some?
  }

  /** What the rows stand for once `done` has been credited and `extras` folded in. */
  datatype Progress = Progress(n: Need, key: string, claimed: set<MachineId>, done: seq<Machine>,
                               extras: map<string, seq<Machine>>, vals: set<string>)

  ghost predicate RowOK(names: seq<string>, g: Progress, v: string, b: Bucket, row: seq<Machine>) {
    && b.value == v && v in g.vals
    && row == Select(Available(g.n, g.key, v, g.claimed), g.done)
    && Stands(names, b, StatFor(g.n, row, Folded(g.extras, v)))
  }

  ghost predicate TableOK(names: seq<string>, g: Progress, t: Table) {
    Shape(t) && Rows(names, g, t) && Reached(g, t)
  }

  ghost predicate Rows(names: seq<string>, g: Progress, t: Table)
    requires Shape(t)
  {
    forall j | 0 <= j < |t.buckets| :: RowOK(names, g, t.buckets[j].value, t.buckets[j], t.members[j])
  }

  /** Every credited machine and every folded total has its domain's row. */
  predicate Reached(g: Progress, t: Table) {
    && (forall m | m in g.done && FreeFor(g.n, g.key, g.claimed, m) :: Lookup(g.key, m).value in t.at)
    && (forall v | v in g.extras :: v in t.at)
  }

  lemma EmptyOK(names: seq<string>, g: Progress)
    requires g.done == [] && g.extras == map[]
    ensures TableOK(names, g, EMPTY)
  {
  }

  lemma NoRowYet(names: seq<string>, g: Progress, t: Table, v: string)
    requires TableOK(names, g, t) && v !in t.at && v in g.vals
    ensures RowOK(names, g, v, Bucket(v, 0, [], [], []), [])
  {
    var free := Select(Available(g.n, g.key, v, g.claimed), g.done);
    SomeElement(free);
    forall m | m in free
      ensures false
    {
      SelectIn(Available(g.n, g.key, v, g.claimed), g.done, m);
    }
    AddNothing(map[]);
  }

  lemma TouchKeeps(names: seq<string>, g: Progress, t: Table, v: string)
    requires TableOK(names, g, t) && v in g.vals
    ensures TableOK(names, g, Touch(t, v)) && v in Touch(t, v).at
  {
    if v !in t.at {
      NoRowYet(names, g, t, v);
      var t' := Touch(t, v);
      forall j | 0 <= j < |t'.buckets|
        ensures RowOK(names, g, t'.buckets[j].value, t'.buckets[j], t'.members[j])
      {
        if j < |t.buckets| {
          assert t'.buckets[j] == t.buckets[j] && t'.members[j] == t.members[j];
        }
      }
    }
  }

  lemma SumSelectLast(q: Query, row: seq<Machine>, m: Machine)
    ensures SumAlloc(Select(q, row + [m])) ==
            if Holds(q, m) then Add(SumAlloc(Select(q, row)), Alloc(m)) else SumAlloc(Select(q, row))
  {
    SelectOne(q, row, m);
    if Holds(q, m) {
      SumLast(Select(q, row), m);
    } else {
      assert Select(q, row) + [] == Select(q, row);
    }
  }

  lemma StandsAdd(names: seq<string>, b: Bucket, s: Stat, vec: seq<nat>, alloc: ResVec, own: bool)
    requires Stands(names, b, s) && Denotes(names, vec, alloc)
    ensures Stands(names, Bucket(b.value, b.count + 1, VecSum(b.total, vec), VecSum(b.cred, vec),
                                 if own then VecSum(b.own, vec) else b.own),
                   Stat(s.count + 1, Add(s.total, alloc), Add(s.cred, alloc), if own then Add(s.own, alloc) else s.own))
  {
    SumRefines(names, b.total, s.total, vec, alloc);
    SumRefines(names, b.cred, s.cred, vec, alloc);
    SumRefines(names, b.own, s.own, vec, alloc);
  }

  lemma StatNext(n: Need, row: seq<Machine>, m: Machine, own: bool)
    requires own == OwnedBy(n, m)
    ensures var s := CredStat(n, row);
            CredStat(n, row + [m]) ==
            Stat(s.count + 1, Add(s.total, Alloc(m)), Add(s.cred, Alloc(m)),
                 if own then Add(s.own, Alloc(m)) else s.own)
  {
    var s, next := CredStat(n, row), CredStat(n, row + [m]);
    SumLast(row, m);
    OwnLast(n, row, m, own);
    assert next.count == s.count + 1;
    assert next.total == Add(s.total, Alloc(m));
    assert next.cred == Add(s.cred, Alloc(m));
    assert next.own == if own then Add(s.own, Alloc(m)) else s.own;
  }

  lemma OwnLast(n: Need, row: seq<Machine>, m: Machine, own: bool)
    requires own == OwnedBy(n, m)
    ensures SumAlloc(Select(Incumbent(n, true), row + [m])) ==
            if own then Add(SumAlloc(Select(Incumbent(n, true), row)), Alloc(m))
            else SumAlloc(Select(Incumbent(n, true), row))
  {
    SumSelectLast(Incumbent(n, true), row, m);
    assert Holds(Incumbent(n, true), m) == own;
  }

  lemma StandsCredit(names: seq<string>, n: Need, b: Bucket, row: seq<Machine>, m: Machine, vec: seq<nat>)
    requires Stands(names, b, CredStat(n, row)) && Denotes(names, vec, Alloc(m))
    ensures Stands(names, Bucket(b.value, b.count + 1, VecSum(b.total, vec), VecSum(b.cred, vec),
                                 if OwnedBy(n, m) then VecSum(b.own, vec) else b.own), CredStat(n, row + [m]))
  {
    var own := OwnedBy(n, m);
    StandsAdd(names, b, CredStat(n, row), vec, Alloc(m), own);
    StatNext(n, row, m, own);
  }

  lemma RowElsewhere(names: seq<string>, g: Progress, v: string, b: Bucket, row: seq<Machine>, m: Machine)
    requires RowOK(names, g, v, b, row) && !Holds(Available(g.n, g.key, v, g.claimed), m)
    ensures RowOK(names, g.(done := g.done + [m]), v, b, row)
  {
    SelectOne(Available(g.n, g.key, v, g.claimed), g.done, m);
    assert row + [] == row;
  }

  lemma RowHere(names: seq<string>, g: Progress, v: string, b: Bucket, row: seq<Machine>, m: Machine, vec: seq<nat>)
    requires RowOK(names, g, v, b, row) && g.extras == map[] && Holds(Available(g.n, g.key, v, g.claimed), m)
    requires Denotes(names, vec, Alloc(m))
    ensures RowOK(names, g.(done := g.done + [m]), v,
                  Bucket(v, b.count + 1, VecSum(b.total, vec), VecSum(b.cred, vec),
                         if OwnedBy(g.n, m) then VecSum(b.own, vec) else b.own), row + [m])
  {
    SelectOne(Available(g.n, g.key, v, g.claimed), g.done, m);
    StandsCredit(names, g.n, b, row, m, vec);
  }

  lemma OnlyItsDomain(g: Progress, m: Machine, v: string)
    ensures Holds(Available(g.n, g.key, v, g.claimed), m) <==>
            FreeFor(g.n, g.key, g.claimed, m) && Lookup(g.key, m).value == v
  {
  }

  /** An update that leaves the domains' rows where they are. */
  lemma SameShape(t: Table, t': Table)
    requires Shape(t) && t'.at == t.at
    requires |t'.buckets| == |t.buckets| && |t'.members| == |t.members|
    requires forall j | 0 <= j < |t.buckets| :: t'.buckets[j].value == t.buckets[j].value
    ensures Shape(t')
  {
  }

  lemma CreditReached(g: Progress, t: Table, t': Table, m: Machine)
    requires Reached(g, t) && t'.at == t.at
    requires FreeFor(g.n, g.key, g.claimed, m) ==> Lookup(g.key, m).value in t.at
    ensures Reached(g.(done := g.done + [m]), t')
  {
  }

  lemma CreditRow(names: seq<string>, g: Progress, t: Table, m: Machine, vec: seq<nat>, j: nat)
    requires Shape(t) && Rows(names, g, t) && g.extras == map[] && FreeFor(g.n, g.key, g.claimed, m)
    requires Lookup(g.key, m).value in t.at && Denotes(names, vec, Alloc(m)) && j < |t.buckets|
    ensures var t' := AddCredit(t, Lookup(g.key, m).value, m, vec, OwnedBy(g.n, m));
            RowOK(names, g.(done := g.done + [m]), t'.buckets[j].value, t'.buckets[j], t'.members[j])
  {
    var v := Lookup(g.key, m).value;
    var w := t.buckets[j].value;
    assert RowOK(names, g, w, t.buckets[j], t.members[j]);
    OnlyItsDomain(g, m, w);
    if j == t.at[v] {
      RowHere(names, g, v, t.buckets[j], t.members[j], m, vec);
    } else {
      RowElsewhere(names, g, w, t.buckets[j], t.members[j], m);
    }
  }

  lemma CreditKeeps(names: seq<string>, g: Progress, t: Table, m: Machine, vec: seq<nat>)
    requires TableOK(names, g, t) && g.extras == map[] && FreeFor(g.n, g.key, g.claimed, m)
    requires Lookup(g.key, m).value in t.at && Denotes(names, vec, Alloc(m))
    ensures TableOK(names, g.(done := g.done + [m]), AddCredit(t, Lookup(g.key, m).value, m, vec, OwnedBy(g.n, m)))
  {
    var t' := AddCredit(t, Lookup(g.key, m).value, m, vec, OwnedBy(g.n, m));
    SameShape(t, t');
    CreditReached(g, t, t', m);
    forall j | 0 <= j < |t'.buckets|
      ensures RowOK(names, g.(done := g.done + [m]), t'.buckets[j].value, t'.buckets[j], t'.members[j])
    {
      CreditRow(names, g, t, m, vec, j);
    }
  }

  lemma SkipKeeps(names: seq<string>, g: Progress, t: Table, m: Machine)
    requires TableOK(names, g, t) && !FreeFor(g.n, g.key, g.claimed, m)
    ensures TableOK(names, g.(done := g.done + [m]), t)
  {
    CreditReached(g, t, t, m);
    forall j | 0 <= j < |t.buckets|
      ensures RowOK(names, g.(done := g.done + [m]), t.buckets[j].value, t.buckets[j], t.members[j])
    {
      OnlyItsDomain(g, m, t.buckets[j].value);
      RowElsewhere(names, g, t.buckets[j].value, t.buckets[j], t.members[j], m);
    }
  }

  lemma StandsTotal(names: seq<string>, b: Bucket, s: Stat, count: nat, total: seq<nat>, extra: ResVec)
    requires Stands(names, b, s) && Denotes(names, total, extra)
    ensures Stands(names, b.(count := b.count + count, total := VecSum(b.total, total)),
                   s.(count := s.count + count, total := Add(s.total, extra)))
  {
    SumRefines(names, b.total, s.total, total, extra);
  }

  lemma RowFolded(names: seq<string>, g: Progress, g': Progress, v: string, was: Bucket, row: seq<Machine>, b: Bucket,
                  extra: seq<Machine>)
    requires RowOK(names, g, v, was, row) && v !in g.extras && g' == g.(extras := g.extras[v := extra])
    requires b.count == |extra| && Denotes(names, b.total, SumAlloc(extra))
    ensures RowOK(names, g', v, was.(count := was.count + b.count, total := VecSum(was.total, b.total)), row)
  {
    StandsTotal(names, was, CredStat(g.n, row), b.count, b.total, SumAlloc(extra));
  }

  lemma RowUntouched(names: seq<string>, g: Progress, g': Progress, w: string, was: Bucket, row: seq<Machine>,
                     v: string,
                     extra: seq<Machine>)
    requires RowOK(names, g, w, was, row) && w != v && g' == g.(extras := g.extras[v := extra])
    ensures RowOK(names, g', w, was, row)
  {
    assert Folded(g'.extras, w) == Folded(g.extras, w);
  }

  lemma TotalRow(names: seq<string>, g: Progress, g': Progress, t: Table, v: string, b: Bucket, extra: seq<Machine>,
                 j: nat)
    requires Shape(t) && Rows(names, g, t) && v in t.at && v !in g.extras && j < |t.buckets|
    requires b.count == |extra| && Denotes(names, b.total, SumAlloc(extra))
    requires g' == g.(extras := g.extras[v := extra])
    ensures RowOK(names, g', AddTotal(t, v, b).buckets[j].value, AddTotal(t, v, b).buckets[j], t.members[j])
  {
    var was, row := t.buckets[j], t.members[j];
    if j == t.at[v] {
      RowFolded(names, g, g', v, was, row, b, extra);
    } else {
      RowUntouched(names, g, g', was.value, was, row, v, extra);
    }
  }

  lemma TotalRows(names: seq<string>, g: Progress, g': Progress, t: Table, v: string, b: Bucket, extra: seq<Machine>)
    requires Shape(t) && Rows(names, g, t) && v in t.at && v !in g.extras && Shape(AddTotal(t, v, b))
    requires b.count == |extra| && Denotes(names, b.total, SumAlloc(extra))
    requires g' == g.(extras := g.extras[v := extra])
    ensures Rows(names, g', AddTotal(t, v, b))
  {
    forall j | 0 <= j < |t.buckets|
      ensures RowOK(names, g', AddTotal(t, v, b).buckets[j].value, AddTotal(t, v, b).buckets[j], t.members[j])
    {
      TotalRow(names, g, g', t, v, b, extra, j);
    }
  }

  lemma TotalReached(g: Progress, g': Progress, t: Table, t': Table, v: string, extra: seq<Machine>)
    requires Reached(g, t) && t'.at == t.at && v in t.at && g' == g.(extras := g.extras[v := extra])
    ensures Reached(g', t')
  {
  }

  lemma TotalKeeps(names: seq<string>, g: Progress, g': Progress, t: Table, v: string, b: Bucket, extra: seq<Machine>)
    requires TableOK(names, g, t) && v in t.at && v !in g.extras
    requires b.count == |extra| && Denotes(names, b.total, SumAlloc(extra))
    requires g' == g.(extras := g.extras[v := extra])
    ensures TableOK(names, g', AddTotal(t, v, b))
  {
    TotalShape(t, v, b);
    TotalReached(g, g', t, AddTotal(t, v, b), v, extra);
    TotalRows(names, g, g', t, v, b, extra);
  }

  lemma TotalShape(t: Table, v: string, b: Bucket)
    requires Shape(t) && v in t.at
    ensures Shape(AddTotal(t, v, b)) && AddTotal(t, v, b).at == t.at
  {
    SameShape(t, AddTotal(t, v, b));
  }

  lemma TableLater(names: seq<string>, later: seq<string>, g: Progress, t: Table)
    requires names <= later && Distinct(later) && TableOK(names, g, t)
    ensures TableOK(later, g, t)
  {
    forall j | 0 <= j < |t.buckets|
      ensures RowOK(later, g, t.buckets[j].value, t.buckets[j], t.members[j])
    {
      var b, s := t.buckets[j], StatFor(g.n, t.members[j], Folded(g.extras, t.buckets[j].value));
      DenotesLater(names, later, b.total, s.total);
      DenotesLater(names, later, b.cred, s.cred);
      DenotesLater(names, later, b.own, s.own);
    }
  }

  // ---- The finished table -------------------------------------------------

  /** The whole supply is credited and every domain's acquirable machines are folded in. */
  ghost predicate Finished(p: Input, n: Need, key: string, st: SeedState, g: Progress) {
    && g.n == n && g.key == key && g.claimed == st.claims.Keys && g.done == Supply(p.ms, n)
    && g.vals == Values(p.ms, n, key)
    && (forall v :: Extra(p, n, key, st, v) == if v in g.extras then g.extras[v] else [])
  }

  lemma RowCounts(p: Input, n: Need, key: string, st: SeedState, g: Progress, t: Table, names: seq<string>, v: string)
    requires TableOK(names, g, t) && Finished(p, n, key, st, g) && StatOf(p, n, key, st, v).count > 0
    ensures v in t.at
  {
    if Members(p, n, key, st, v) != [] {
      MemberReached(p, n, key, st, g, t, names, v, Members(p, n, key, st, v)[0]);
    } else {
      ExtraReached(p, n, key, st, g, t, names, v);
    }
  }

  lemma MemberReached(p: Input, n: Need, key: string, st: SeedState, g: Progress, t: Table, names: seq<string>,
                      v: string, m: Machine)
    requires TableOK(names, g, t) && Finished(p, n, key, st, g) && m in Members(p, n, key, st, v)
    ensures v in t.at
  {
    SelectIn(Available(n, key, v, st.claims.Keys), Supply(p.ms, n), m);
    assert m in g.done && FreeFor(g.n, g.key, g.claimed, m);
  }

  lemma ExtraReached(p: Input, n: Need, key: string, st: SeedState, g: Progress, t: Table, names: seq<string>,
                     v: string)
    requires TableOK(names, g, t) && Finished(p, n, key, st, g) && Extra(p, n, key, st, v) != []
    ensures v in t.at
  {
    assert v in g.extras;
  }

  lemma StatFinished(p: Input, n: Need, key: string, st: SeedState, g: Progress, v: string)
    requires Finished(p, n, key, st, g)
    ensures StatOf(p, n, key, st, v) == StatFor(n, Members(p, n, key, st, v), Folded(g.extras, v))
  {
    var row := Members(p, n, key, st, v);
    if v !in g.extras {
      assert Extra(p, n, key, st, v) == [];
      AddNothing(SumAlloc(row));
    }
  }

  /** The finished table lists the domain statistics, one bucket a domain. */
  lemma {:induction false} TableLists(p: Input, n: Need, key: string, st: SeedState, g: Progress, t: Table,
                                      names: seq<string>)
    requires TableOK(names, g, t) && Finished(p, n, key, st, g)
    ensures Lists(names, t.buckets, Stats(p, n, key, st))
    ensures forall j | 0 <= j < |t.buckets| :: t.members[j] == Members(p, n, key, st, t.buckets[j].value)
  {
    var stats := Stats(p, n, key, st);
    forall j | 0 <= j < |t.buckets|
      ensures t.buckets[j].value in stats && Stands(names, t.buckets[j], stats[t.buckets[j].value])
      ensures t.members[j] == Members(p, n, key, st, t.buckets[j].value)
    {
      assert RowOK(names, g, t.buckets[j].value, t.buckets[j], t.members[j]);
      StatFinished(p, n, key, st, g, t.buckets[j].value);
    }
    forall v | v in stats && stats[v].count > 0
      ensures exists b :: b in t.buckets && b.value == v
    {
      RowCounts(p, n, key, st, g, t, names, v);
      assert t.buckets[t.at[v]] in t.buckets;
    }
  }
}
