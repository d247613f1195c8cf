/** Dimension-interned integer vectors, and that they mean the named resource vectors
    they were parsed from, also after further dimensions were interned. */
module SameSupply {
  import opened Fleet
  import opened Inventory
  import opened Pools
  import opened Resources
  import opened SameBucket
  import opened Views
  import opened Sequences

  /** Under the interning table `names`, the integer vector stands for `v`: a position
      past its end, or a name never interned, reads as zero. */
  ghost predicate Denotes(names: seq<string>, vec: seq<nat>, v: ResVec) {
    && |vec| <= |names|
    && (forall i | 0 <= i < |names| :: Qty(v, names[i]) == At(vec, i))
    && (forall d | d in v && v[d] > 0 :: d in names)
  }

  /** Interning more dimensions changes no meaning. */
  lemma DenotesLater(names: seq<string>, later: seq<string>, vec: seq<nat>, v: ResVec)
    requires names <= later && Distinct(later) && Denotes(names, vec, v)
    ensures Denotes(later, vec, v)
  {
    forall i | 0 <= i < |later|
      ensures Qty(v, later[i]) == At(vec, i)
    {
      if i < |names| {
        assert later[i] == names[i];
      } else {
        assert later[i] !in names;
      }
    }
  }

  lemma CoversRefines(names: seq<string>, a: seq<nat>, av: ResVec, b: seq<nat>, bv: ResVec)
    requires Denotes(names, a, av) && Denotes(names, b, bv)
    ensures VecCovers(a, b) <==> Covers(av, bv)
  {
    if VecCovers(a, b) {
      forall d | d in bv
        ensures bv[d] <= Qty(av, d)
      {
        if bv[d] > 0 {
          var i :| 0 <= i < |names| && names[i] == d;
          assert At(b, i) == bv[d] && At(a, i) == Qty(av, d);
        }
      }
    }
    if Covers(av, bv) {
      forall i | 0 <= i < |b| && b[i] > 0
        ensures At(a, i) >= b[i]
      {
        assert Qty(bv, names[i]) == b[i] && Qty(av, names[i]) == At(a, i);
      }
    }
  }

  function VecSum(a: seq<nat>, b: seq<nat>): seq<nat> {
    seq(if |a| < |b| then |b| else |a|, i requires i >= 0 => At(a, i) + At(b, i))
  }

  lemma SumRefines(names: seq<string>, a: seq<nat>, av: ResVec, b: seq<nat>, bv: ResVec)
    requires Denotes(names, a, av) && Denotes(names, b, bv)
    ensures Denotes(names, VecSum(a, b), Add(av, bv))
  {
    var s, sv := VecSum(a, b), Add(av, bv);
    forall i | 0 <= i < |names|
      ensures Qty(sv, names[i]) == At(s, i)
    {
      assert Qty(av, names[i]) == At(a, i) && Qty(bv, names[i]) == At(b, i);
    }
    forall d | d in sv && sv[d] > 0
      ensures d in names
    {
      assert Qty(av, d) > 0 || Qty(bv, d) > 0;
    }
  }

  /** The in-place growing addition of the index. */
  method VecAdd(dst: seq<nat>, src: seq<nat>) returns (r: seq<nat>)
    ensures r == VecSum(dst, src)
  {
    r := Padded(dst, |src|);
    for k := 0 to |src|
      invariant |r| == |VecSum(dst, src)|
      invariant forall i | 0 <= i < |r| :: r[i] == At(dst, i) + if i < k then src[i] else 0
    {
      r := r[k := r[k] + src[k]];
    }
  }

  // ---- Running down a deficit ---------------------------------------------

  predicate HasPositive(v: seq<int>) {
    exists i :: 0 <= i < |v| && v[i] > 0
  }

  function AtInt(v: seq<int>, i: nat): int {
    if i < |v| then v[i] else 0
  }

  /** The running integer vector, which may go below zero, stands for the saturated
      named one. */
  ghost predicate DenotesDown(names: seq<string>, vec: seq<int>, v: ResVec) {
    && |vec| <= |names|
    && (forall i | 0 <= i < |names| :: Qty(v, names[i]) == if AtInt(vec, i) < 0 then 0 else AtInt(vec, i))
    && (forall d | d in v && v[d] > 0 :: d in names)
  }

  lemma DenotesStart(names: seq<string>, vec: seq<nat>, v: ResVec)
    requires Denotes(names, vec, v)
    ensures DenotesDown(names, vec, v)
  {
    forall i | 0 <= i < |names|
      ensures Qty(v, names[i]) == if AtInt(vec, i) < 0 then 0 else AtInt(vec, i)
    {
      assert Qty(v, names[i]) == At(vec, i);
    }
  }

  lemma PositiveRefines(names: seq<string>, vec: seq<int>, v: ResVec)
    requires DenotesDown(names, vec, v)
    ensures HasPositive(vec) <==> !IsZero(v)
  {
    if HasPositive(vec) {
      var i :| 0 <= i < |vec| && vec[i] > 0;
      assert Qty(v, names[i]) == vec[i];
    }
    if !IsZero(v) {
      var d :| d in v && v[d] != 0;
      var i :| 0 <= i < |names| && names[i] == d;
      assert AtInt(vec, i) > 0;
    }
  }

  function Lowered(vec: seq<int>, spent: seq<nat>): seq<int> {
    seq(|vec|, i requires 0 <= i < |vec| => vec[i] - At(spent, i))
  }

  /** Subtracting without saturation keeps standing for the saturated residual. */
  lemma LoweredRefines(names: seq<string>, vec: seq<int>, v: ResVec, spent: seq<nat>, alloc: ResVec)
    requires DenotesDown(names, vec, v) && Denotes(names, spent, alloc)
    ensures DenotesDown(names, Lowered(vec, spent), Sub(v, alloc))
  {
    var low, left := Lowered(vec, spent), Sub(v, alloc);
    forall i | 0 <= i < |names|
      ensures Qty(left, names[i]) == if AtInt(low, i) < 0 then 0 else AtInt(low, i)
    {
      assert Qty(v, names[i]) == if AtInt(vec, i) < 0 then 0 else AtInt(vec, i);
      assert Qty(alloc, names[i]) == At(spent, i);
      assert Qty(left, names[i]) == Monus(Qty(v, names[i]), Qty(alloc, names[i]));
    }
    forall d | d in left && left[d] > 0
      ensures d in names
    {
      assert Qty(v, d) > 0;
    }
  }

  method Lower(vec: seq<int>, spent: seq<nat>) returns (r: seq<int>)
    ensures r == Lowered(vec, spent)
  {
    r := vec;
    for i := 0 to |vec|
      invariant |r| == |vec|
      invariant forall k | 0 <= k < |vec| :: r[k] == if k < i then vec[k] - At(spent, k) else vec[k]
    {
      if i < |spent| {
        r := r[i := r[i] - spent[i]];
      }
    }
  }

  // ---- The per-Profile index of acquirable machines -----------------------

  /** Idle before Speculative, each from the Profile's own source. */
  function Acquirable(ms: seq<Machine>, p: Profile): seq<Machine> {
    Source(ms, Idle, p) + Source(ms, Speculative, p)
  }

  /** Which acquirable machines a residual is going to use up. */
  function Consume(members: seq<Machine>, rem: ResVec, consumed: set<MachineId>): set<MachineId> {
    if members == [] || IsZero(rem) then consumed
    else Consume(members[1..], Sub(rem, Alloc(members[0])), consumed + {members[0].id})
  }

  datatype Member = Member(id: MachineId, vec: seq<nat>)

  ghost predicate Listed(names: seq<string>, members: seq<Member>, ms: seq<Machine>) {
    |members| == |ms| &&
    forall k | 0 <= k < |ms| :: members[k].id == ms[k].id && Denotes(names, members[k].vec, Alloc(ms[k]))
  }

  /** Per value of the Same key, the machines carrying it, with their parsed vectors. */
  ghost predicate ByDomain(names: seq<string>, d: map<string, seq<Member>>, p: Profile, key: string, ms: seq<Machine>) {
    forall v :: Listed(names, Cell(d, v), Select(Carrying(p, key, v), ms))
  }

  ghost predicate CacheOK(names: seq<string>, byFP: map<Profile, map<string, seq<Member>>>, ms: seq<Machine>) {
    forall p | p in byFP ::
      SameKey(p).Some? && ByDomain(names, byFP[p], p, SameKey(p).value, Acquirable(ms, p))
  }

  lemma ListedLater(names: seq<string>, later: seq<string>, members: seq<Member>, ms: seq<Machine>)
    requires names <= later && Distinct(later) && Listed(names, members, ms)
    ensures Listed(later, members, ms)
  {
    forall k | 0 <= k < |ms|
      ensures Denotes(later, members[k].vec, Alloc(ms[k]))
    {
      DenotesLater(names, later, members[k].vec, Alloc(ms[k]));
    }
  }

  lemma ByDomainLater(names: seq<string>, later: seq<string>, d: map<string, seq<Member>>, p: Profile, key: string,
                      ms: seq<Machine>)
    requires names <= later && Distinct(later) && ByDomain(names, d, p, key, ms)
    ensures ByDomain(later, d, p, key, ms)
  {
    forall v
      ensures Listed(later, Cell(d, v), Select(Carrying(p, key, v), ms))
    {
      ListedLater(names, later, Cell(d, v), Select(Carrying(p, key, v), ms));
    }
  }

  lemma CacheLater(names: seq<string>, later: seq<string>, byFP: map<Profile, map<string, seq<Member>>>,
                   ms: seq<Machine>)
    requires names <= later && Distinct(later) && CacheOK(names, byFP, ms)
    ensures CacheOK(later, byFP, ms)
  {
    forall p | p in byFP
      ensures ByDomain(later, byFP[p], p, SameKey(p).value, Acquirable(ms, p))
    {
      ByDomainLater(names, later, byFP[p], p, SameKey(p).value, Acquirable(ms, p));
    }
  }

  lemma ByDomainNext(names: seq<string>, d: map<string, seq<Member>>, p: Profile, key: string, ms: seq<Machine>,
                     m: Machine, vec: seq<nat>)
    requires ByDomain(names, d, p, key, ms) && Denotes(names, vec, Alloc(m))
    ensures ByDomain(names, if Matches(p, m) && Lookup(key, m).Some?
                            then d[Lookup(key, m).value := Cell(d, Lookup(key, m).value) + [Member(m.id, vec)]] else d,
                     p, key, ms + [m])
  {
    var next := if Matches(p, m) && Lookup(key, m).Some?
                then d[Lookup(key, m).value := Cell(d, Lookup(key, m).value) + [Member(m.id, vec)]] else d;
    forall v
      ensures Listed(names, Cell(next, v), Select(Carrying(p, key, v), ms + [m]))
    {
      SelectConcat(Carrying(p, key, v), ms, [m]);
      assert Select(Carrying(p, key, v), [m]) == if Holds(Carrying(p, key, v), m) then [m] else [];
      assert Listed(names, Cell(d, v), Select(Carrying(p, key, v), ms));
    }
  }

  class SameSupplyIndex {
    const snap: Snapshot
    var dims: map<string, nat>
    var byFP: map<Profile, map<string, seq<Member>>>
    ghost var names: seq<string>

    constructor (s: Snapshot)
      requires s.Agrees()
      ensures Valid() && snap == s && names == []
    {
      snap, dims, byFP, names := s, map[], map[], [];
    }

    /** The table hands out the positions 0, 1, 2, ... in order of first appearance. */
    ghost predicate Interned()
      reads this
    {
      && Distinct(names)
      && (forall d | d in dims :: dims[d] < |names| && names[dims[d]] == d)
      && (forall i | 0 <= i < |names| :: names[i] in dims && dims[names[i]] == i)
      && |dims| == |names|
    }

    ghost predicate Valid()
      reads this
    {
      snap.Agrees() && Interned() && CacheOK(names, byFP, snap.machines)
    }

    method Dim(name: string) returns (i: nat)
      requires Interned()
      modifies `dims, `names
      ensures Interned() && old(names) <= names
      ensures i < |names| && names[i] == name
    {
      if name in dims {
        return dims[name];
      }
      i := |dims|;
      dims := dims[name := i];
      names := names + [name];
    }

    method ParseVec(v: ResVec) returns (vec: seq<nat>)
      requires Valid()
      modifies `dims, `names
      ensures Valid() && old(names) <= names
      ensures Denotes(names, vec, v)
    {
      vec := [];
      var todo := v.Keys;
      while todo != {}
        invariant Interned() && old(names) <= names && todo <= v.Keys
        invariant Written(names, vec, v, todo)
        decreases todo
      {
        var d :| d in todo;
        vec := Write(vec, v, d, todo);
        todo := todo - {d};
      }
      WrittenAll(names, vec, v);
      CacheLater(old(names), names, byFP, snap.machines);
    }

    method Write(vec: seq<nat>, v: ResVec, d: string, ghost todo: set<string>) returns (r: seq<nat>)
      requires Interned() && d in todo && todo <= v.Keys && Written(names, vec, v, todo)
      modifies `dims, `names
      ensures Interned() && old(names) <= names
      ensures Written(names, r, v, todo - {d})
    {
      var i := Dim(d);
      r := Padded(vec, i + 1);
      r := r[i := v[d]];
      WrittenNext(old(names), names, vec, v, todo, d, i, r);
    }

    /** Files one machine under its domain. */
    method FileOne(m: Machine, p: Profile, key: string, d0: map<string, seq<Member>>, ghost before: seq<Machine>)
      returns (d: map<string, seq<Member>>)
      requires Valid() && ByDomain(names, d0, p, key, before)
      modifies `dims, `names
      ensures Valid() && old(names) <= names
      ensures ByDomain(names, d, p, key, before + [m])
    {
      if Matches(p, m) && Lookup(key, m).Some? {
        var vec := ParseVec(Alloc(m));
        ByDomainLater(old(names), names, d0, p, key, before);
        ByDomainNext(names, d0, p, key, before, m, vec);
        d := d0[Lookup(key, m).value := Cell(d0, Lookup(key, m).value) + [Member(m.id, vec)]];
      } else {
        ByDomainSkip(names, d0, p, key, before, m);
        d := d0;
      }
    }

    /** Files the machines of one source. */
    method File(src: seq<Machine>, p: Profile, key: string, d0: map<string, seq<Member>>, ghost before: seq<Machine>)
      returns (d: map<string, seq<Member>>)
      requires Valid() && ByDomain(names, d0, p, key, before)
      modifies `dims, `names
      ensures Valid() && old(names) <= names
      ensures ByDomain(names, d, p, key, before + src)
    {
      d := d0;
      assert before + src[..0] == before;
      for i := 0 to |src|
        invariant Valid() && old(names) <= names
        invariant ByDomain(names, d, p, key, before + src[..i])
      {
        assert before + src[..i + 1] == before + src[..i] + [src[i]];
        d := FileOne(src[i], p, key, d, before + src[..i]);
      }
      assert src[..|src|] == src;
    }

    /** The domains of a Profile's acquirable machines, built once. */
    method Domains(p: Profile, key: string) returns (d: map<string, seq<Member>>)
      requires Valid() && SameKey(p) == Some(key)
      modifies this
      ensures Valid() && old(names) <= names
      ensures ByDomain(names, d, p, key, Acquirable(snap.machines, p))
    {
      if p in byFP {
        return byFP[p];
      }
      var idle := SourceOf(snap, Idle, p);
      var speculative := SourceOf(snap, Speculative, p);
      NothingFiled(names, p, key);
      d := File(idle, p, key, map[], []);
      assert [] + idle == idle;
      d := File(speculative, p, key, d, idle);
      byFP := byFP[p := d];
    }

    /** Count and joint total, by domain, of the acquirable machines not in `taken` that
        host a unit of the Need; domains without any are left out. */
    method AcquirableTotals(n: Need, key: string, taken: set<MachineId>) returns (out: map<string, Bucket>)
      requires Valid() && SameKey(n.profile) == Some(key)
      modifies this
      ensures Valid() && old(names) <= names
      ensures Totals(names, out, n, key, taken, Acquirable(snap.machines, n.profile))
    {
      var unit := ParseVec(n.minUnit);
      ghost var was := names;
      var d := Domains(n.profile, key);
      DenotesLater(was, names, unit, n.minUnit);
      out := TotalsOf(d, unit, n, key, taken, names, Acquirable(snap.machines, n.profile));
    }

    /** Marks the machines of one domain that a residual is going to use up. */
    method ConsumeAcquirable(n: Need, key: string, v: string, deficit: ResVec, consumed: set<MachineId>)
      returns (out: set<MachineId>)
      requires Valid() && SameKey(n.profile) == Some(key)
      requires Unique(snap.machines) && PinsDistinct(n.profile)
      modifies this
      ensures Valid() && old(names) <= names
      ensures out == Consume(Select(Available(n, key, v, consumed), Acquirable(snap.machines, n.profile)), deficit,
                             consumed)
    {
      var remaining: seq<int> := ParseVec(deficit);
      DenotesStart(names, remaining, deficit);
      PositiveRefines(names, remaining, deficit);
      if !HasPositive(remaining) {
        return consumed;
      }
      ghost var was := names;
      var unit := ParseVec(n.minUnit);
      ghost var mid := names;
      var d := Domains(n.profile, key);
      DenotesLater(mid, names, unit, n.minUnit);
      DenotesDownLater(was, names, remaining, deficit);
      ghost var acq := Acquirable(snap.machines, n.profile);
      AcquirableUnique(snap.machines, n.profile);
      SelectUnique(Carrying(n.profile, key, v), acq);
      CarryingIn(n.profile, key, v, acq);
      OneTotal(n, key, v, consumed, acq);
      assert Listed(names, Cell(d, v), Select(Carrying(n.profile, key, v), acq));
      out := RunDown(Cell(d, v), unit, n, key, v, remaining, deficit, consumed, names,
                     Select(Carrying(n.profile, key, v), acq));
    }
  }

  ghost predicate Totals(names: seq<string>, out: map<string, Bucket>, n: Need, key: string, taken: set<MachineId>,
                         acq: seq<Machine>) {
    forall v :: TotalOK(names, out, n, key, taken, acq, v)
  }

  ghost predicate TotalOK(names: seq<string>, out: map<string, Bucket>, n: Need, key: string, taken: set<MachineId>,
                          acq: seq<Machine>, v: string) {
    TotalIs(names, if v in out then Some(out[v]) else None, v, Select(Available(n, key, v, taken), acq))
  }

  ghost predicate TotalIs(names: seq<string>, b: Option<Bucket>, v: string, free: seq<Machine>) {
    match b
    case None => free == []
    case Some(x) =>
      && free != [] && x.value == v && x.count == |free|
      && Denotes(names, x.total, SumAlloc(free)) && x.cred == [] && x.own == []
  }

  lemma CarryingIn(p: Profile, key: string, v: string, acq: seq<Machine>)
    ensures forall m | m in Select(Carrying(p, key, v), acq) :: Matches(p, m) && Lookup(key, m) == Some(v)
  {
    forall m | m in Select(Carrying(p, key, v), acq)
      ensures Matches(p, m) && Lookup(key, m) == Some(v)
    {
      SelectIn(Carrying(p, key, v), acq, m);
    }
  }

  lemma OneTotal(n: Need, key: string, v: string, taken: set<MachineId>, acq: seq<Machine>)
    ensures Select(Available(n, key, v, taken), Select(Carrying(n.profile, key, v), acq)) ==
            Select(Available(n, key, v, taken), acq)
  {
    SelectThrough(Available(n, key, v, taken), Carrying(n.profile, key, v), acq);
  }

  lemma NoneInDomain(names: seq<string>, d: map<string, seq<Member>>, n: Need, key: string, v: string,
                     taken: set<MachineId>, acq: seq<Machine>)
    requires ByDomain(names, d, n.profile, key, acq) && v !in d
    ensures Select(Available(n, key, v, taken), acq) == []
  {
    assert Listed(names, Cell(d, v), Select(Carrying(n.profile, key, v), acq));
    assert |Select(Carrying(n.profile, key, v), acq)| == 0;
    OneTotal(n, key, v, taken, acq);
  }

  /** A Need's workers may acquire the Idle and Speculative machines that match it, except that
      pinned types do not let it see those that declare none. */
  lemma AcquirableIn(ms: seq<Machine>, p: Profile, m: Machine)
    requires Matches(p, m)
    ensures m in Acquirable(ms, p) <==>
            m in ms && (m.state == Idle || m.state == Speculative) && (PinnedTypes(p).Some? ==> m.instanceType != "")
  {
    SourceIn(ms, Idle, p, m);
    SourceIn(ms, Speculative, p, m);
    if m in ms {
      FreeSource(ms, Idle, p, m);
      FreeSource(ms, Speculative, p, m);
    }
  }

  lemma AcquirableUnique(ms: seq<Machine>, p: Profile)
    requires Unique(ms) && PinsDistinct(p)
    ensures Unique(Acquirable(ms, p))
  {
    SourceUnique(ms, Idle, p);
    SourceUnique(ms, Speculative, p);
    forall m
      ensures m in Source(ms, Idle, p) ==> m in ms && m.state == Idle
      ensures m in Source(ms, Speculative, p) ==> m in ms && m.state == Speculative
    {
      SourceIn(ms, Idle, p, m);
      SourceIn(ms, Speculative, p, m);
    }
    StatesApart(ms, Source(ms, Idle, p), Source(ms, Speculative, p));
  }

  lemma DenotesDownLater(names: seq<string>, later: seq<string>, vec: seq<int>, v: ResVec)
    requires names <= later && Distinct(later) && DenotesDown(names, vec, v)
    ensures DenotesDown(later, vec, v)
  {
    forall i | 0 <= i < |later|
      ensures Qty(v, later[i]) == if AtInt(vec, i) < 0 then 0 else AtInt(vec, i)
    {
      if i < |names| {
        assert later[i] == names[i];
      } else {
        assert later[i] !in names;
      }
    }
  }

  lemma FreeIff(names: seq<string>, n: Need, key: string, v: string, taken: set<MachineId>, m: Machine, vec: seq<nat>,
                unit: seq<nat>)
    requires Matches(n.profile, m) && Lookup(key, m) == Some(v)
    requires Denotes(names, vec, Alloc(m)) && Denotes(names, unit, n.minUnit)
    ensures Holds(Available(n, key, v, taken), m) <==> m.id !in taken && VecCovers(vec, unit)
  {
    CoversRefines(names, vec, Alloc(m), unit, n.minUnit);
  }

  lemma SelectOne(q: Query, pre: seq<Machine>, m: Machine)
    ensures Select(q, pre + [m]) == Select(q, pre) + if Holds(q, m) then [m] else []
  {
    SelectConcat(q, pre, [m]);
    assert Select(q, [m]) == if Holds(q, m) then [m] else [];
  }

  /** One more machine of the domain: counted when it is free and hosts a unit. */
  lemma NextTotal(names: seq<string>, q: Query, pre: seq<Machine>, m: Machine, vec: seq<nat>, total: seq<nat>)
    requires Denotes(names, vec, Alloc(m)) && Denotes(names, total, SumAlloc(Select(q, pre)))
    ensures Denotes(names, if Holds(q, m) then VecSum(total, vec) else total, SumAlloc(Select(q, pre + [m])))
  {
    SelectOne(q, pre, m);
    SumLast(Select(q, pre), m);
    SumRefines(names, total, SumAlloc(Select(q, pre)), vec, Alloc(m));
    assert Select(q, pre) + [] == Select(q, pre);
  }

  /** Count and joint total of what the query keeps. */
  ghost predicate Counted(names: seq<string>, q: Query, ms: seq<Machine>, count: nat, total: seq<nat>) {
    count == |Select(q, ms)| && Denotes(names, total, SumAlloc(Select(q, ms)))
  }

  lemma CountedNext(names: seq<string>, q: Query, ms: seq<Machine>, i: nat, vec: seq<nat>, count: nat, total: seq<nat>)
    requires i < |ms| && Denotes(names, vec, Alloc(ms[i])) && Counted(names, q, ms[..i], count, total)
    ensures if Holds(q, ms[i]) then Counted(names, q, ms[..i + 1], count + 1, VecSum(total, vec))
            else Counted(names, q, ms[..i + 1], count, total)
  {
    assert ms[..i + 1] == ms[..i] + [ms[i]];
    SelectOne(q, ms[..i], ms[i]);
    NextTotal(names, q, ms[..i], ms[i], vec, total);
  }

  method DomainTotal(members: seq<Member>, unit: seq<nat>, n: Need, key: string, v: string, taken: set<MachineId>,
                     ghost names: seq<string>, ghost ms: seq<Machine>)
    returns (count: nat, total: seq<nat>)
    requires Listed(names, members, ms) && Denotes(names, unit, n.minUnit)
    requires forall m | m in ms :: Matches(n.profile, m) && Lookup(key, m) == Some(v)
    ensures count == |Select(Available(n, key, v, taken), ms)|
    ensures Denotes(names, total, SumAlloc(Select(Available(n, key, v, taken), ms)))
  {
    count, total := 0, [];
    ghost var q := Available(n, key, v, taken);
    assert Counted(names, q, ms[..0], count, total);
    for i := 0 to |members|
      invariant Counted(names, q, ms[..i], count, total)
    {
      var m := members[i];
      FreeIff(names, n, key, v, taken, ms[i], m.vec, unit);
      CountedNext(names, q, ms, i, m.vec, count, total);
      if m.id !in taken && VecCovers(m.vec, unit) {
        count := count + 1;
        total := VecAdd(total, m.vec);
      }
    }
    assert ms[..|ms|] == ms;
  }

  lemma ConsumeNext(n: Need, key: string, v: string, taken: set<MachineId>, ms: seq<Machine>, i: nat, left: ResVec,
                    now: set<MachineId>)
    requires i < |ms| && !IsZero(left) && Matches(n.profile, ms[i]) && Lookup(key, ms[i]) == Some(v)
    ensures var q := Available(n, key, v, taken);
            Consume(Select(q, ms[i..]), left, now) ==
            if ms[i].id in taken || !Covers(Alloc(ms[i]), n.minUnit) then Consume(Select(q, ms[i + 1..]), left, now)
            else Consume(Select(q, ms[i + 1..]), Sub(left, Alloc(ms[i])), now + {ms[i].id})
  {
    var q, m, t := Available(n, key, v, taken), ms[i], ms[i + 1..];
    assert ms[i..] == [m] + t;
    SelectHead(q, m, t);
    assert Holds(q, m) == (m.id !in taken && Covers(Alloc(m), n.minUnit));
    ConsumeHead(m, Select(q, t), left, now);
  }

  lemma ConsumeHead(m: Machine, t: seq<Machine>, left: ResVec, now: set<MachineId>)
    requires !IsZero(left)
    ensures Consume([m] + t, left, now) == Consume(t, Sub(left, Alloc(m)), now + {m.id})
  {
    assert ([m] + t)[1..] == t;
  }

  method TotalOf(d: map<string, seq<Member>>, v: string, unit: seq<nat>, n: Need, key: string, taken: set<MachineId>,
                 ghost names: seq<string>, ghost acq: seq<Machine>)
    returns (b: Option<Bucket>)
    requires ByDomain(names, d, n.profile, key, acq) && Denotes(names, unit, n.minUnit) && v in d
    ensures TotalIs(names, b, v, Select(Available(n, key, v, taken), acq))
  {
    CarryingIn(n.profile, key, v, acq);
    assert Listed(names, Cell(d, v), Select(Carrying(n.profile, key, v), acq));
    OneTotal(n, key, v, taken, acq);
    var count, total := DomainTotal(d[v], unit, n, key, v, taken, names, Select(Carrying(n.profile, key, v), acq));
    b := if count > 0 then Some(Bucket(v, count, total, [], [])) else None;
  }

  method TotalsOf(d: map<string, seq<Member>>, unit: seq<nat>, n: Need, key: string, taken: set<MachineId>,
                  ghost names: seq<string>, ghost acq: seq<Machine>)
    returns (out: map<string, Bucket>)
    requires ByDomain(names, d, n.profile, key, acq) && Denotes(names, unit, n.minUnit)
    ensures Totals(names, out, n, key, taken, acq)
  {
    out := map[];
    var todo := d.Keys;
    while todo != {}
      invariant todo <= d.Keys && out.Keys <= d.Keys - todo
      invariant forall v | v in d && v !in todo :: TotalOK(names, out, n, key, taken, acq, v)
      decreases todo
    {
      var v :| v in todo;
      var b := TotalOf(d, v, unit, n, key, taken, names, acq);
      TotalsNext(names, out, n, key, taken, acq, d.Keys, todo, v, b);
      todo := todo - {v};
      if b.Some? {
        out := out[v := b.value];
      }
    }
    forall v | v !in d
      ensures TotalOK(names, out, n, key, taken, acq, v)
    {
      NoneInDomain(names, d, n, key, v, taken, acq);
    }
  }

  lemma TotalsNext(names: seq<string>, out: map<string, Bucket>, n: Need, key: string, taken: set<MachineId>,
                   acq: seq<Machine>, all: set<string>, todo: set<string>, v: string, b: Option<Bucket>)
    requires v in todo && out.Keys !! todo
    requires forall u | u in all && u !in todo :: TotalOK(names, out, n, key, taken, acq, u)
    requires TotalIs(names, b, v, Select(Available(n, key, v, taken), acq))
    ensures forall u | u in all && u !in todo - {v} ::
              TotalOK(names, if b.Some? then out[v := b.value] else out, n, key, taken, acq, u)
  {
    var next := if b.Some? then out[v := b.value] else out;
    forall u | u in all && u !in todo - {v}
      ensures TotalOK(names, next, n, key, taken, acq, u)
    {
      if u != v {
        assert TotalOK(names, out, n, key, taken, acq, u);
      }
    }
  }

  method RunDown(members: seq<Member>, unit: seq<nat>, n: Need, key: string, v: string, start: seq<int>,
                 ghost deficit: ResVec, consumed: set<MachineId>, ghost names: seq<string>, ghost ms: seq<Machine>)
    returns (out: set<MachineId>)
    requires Listed(names, members, ms) && Unique(ms) && Denotes(names, unit, n.minUnit)
    requires forall m | m in ms :: Matches(n.profile, m) && Lookup(key, m) == Some(v)
    requires DenotesDown(names, start, deficit) && HasPositive(start)
    ensures out == Consume(Select(Available(n, key, v, consumed), ms), deficit, consumed)
  {
    out := consumed;
    var remaining := start;
    ghost var left := deficit;
    ghost var goal := Consume(Select(Available(n, key, v, consumed), ms), deficit, consumed);
    assert ms[0..] == ms;
    for i := 0 to |members|
      invariant DenotesDown(names, remaining, left) && HasPositive(remaining)
      invariant goal == Consume(Select(Available(n, key, v, consumed), ms[i..]), left, out)
      invariant forall k | i <= k < |ms| :: ms[k].id in out <==> ms[k].id in consumed
    {
      var m := members[i];
      PositiveRefines(names, remaining, left);
      ConsumeNext(n, key, v, consumed, ms, i, left, out);
      CoversRefines(names, m.vec, Alloc(ms[i]), unit, n.minUnit);
      if m.id !in out && VecCovers(m.vec, unit) {
        out := out + {m.id};
        LoweredRefines(names, remaining, left, m.vec, Alloc(ms[i]));
        left := Sub(left, Alloc(ms[i]));
        remaining := Lower(remaining, m.vec);
        PositiveRefines(names, remaining, left);
        if !HasPositive(remaining) {
          return;
        }
      }
    }
  }

  lemma NothingFiled(names: seq<string>, p: Profile, key: string)
    ensures ByDomain(names, map[], p, key, [])
  {
  }

  lemma ByDomainSkip(names: seq<string>, d: map<string, seq<Member>>, p: Profile, key: string, ms: seq<Machine>,
                     m: Machine)
    requires ByDomain(names, d, p, key, ms) && !(Matches(p, m) && Lookup(key, m).Some?)
    ensures ByDomain(names, d, p, key, ms + [m])
  {
    forall v
      ensures Listed(names, Cell(d, v), Select(Carrying(p, key, v), ms + [m]))
    {
      SelectConcat(Carrying(p, key, v), ms, [m]);
      assert Select(Carrying(p, key, v), [m]) == [];
      assert Listed(names, Cell(d, v), Select(Carrying(p, key, v), ms));
    }
  }

  /** The entries outside `todo` have been written to `vec`; the rest of it is zero. */
  ghost predicate Written(names: seq<string>, vec: seq<nat>, v: ResVec, todo: set<string>) {
    && |vec| <= |names|
    && (forall d | d in v && d !in todo :: d in names)
    && (forall i | 0 <= i < |names| && names[i] in v && names[i] !in todo :: i < |vec|)
    && (forall i | 0 <= i < |vec| :: vec[i] == if names[i] in v && names[i] !in todo then v[names[i]] else 0)
  }

  lemma WrittenAll(names: seq<string>, vec: seq<nat>, v: ResVec)
    requires Distinct(names) && Written(names, vec, v, {})
    ensures Denotes(names, vec, v)
  {
  }

  lemma WrittenNext(names: seq<string>, later: seq<string>, vec: seq<nat>, v: ResVec, todo: set<string>,
                    d: string, i: nat, r: seq<nat>)
    requires Distinct(later) && names <= later && d in todo && d in v && Written(names, vec, v, todo)
    requires i < |later| && later[i] == d
    requires |r| == (if i + 1 < |vec| then |vec| else i + 1)
    requires forall k | 0 <= k < |r| :: r[k] == if k == i then v[d] else At(vec, k)
    ensures Written(later, r, v, todo - {d})
  {
    forall k | 0 <= k < |later| && later[k] in v && later[k] !in todo
      ensures k < |vec|
    {
      var j :| 0 <= j < |names| && names[j] == later[k];
      assert later[j] == later[k];
    }
    forall k | 0 <= k < |r| && k != i
      ensures later[k] != d
      ensures At(vec, k) == if later[k] in v && later[k] !in todo then v[later[k]] else 0
    {
      if k < |vec| {
        assert later[k] == names[k];
      }
    }
  }

  method Padded(vec: seq<nat>, len: nat) returns (r: seq<nat>)
    ensures |r| == if len < |vec| then |vec| else len
    ensures forall i | 0 <= i < |r| :: r[i] == At(vec, i)
  {
    r := vec;
    while |r| < len
      invariant |vec| <= |r| && (|r| <= len || r == vec)
      invariant forall i | 0 <= i < |r| :: r[i] == At(vec, i)
    {
      r := r + [0];
    }
  }
}
