/** A snapshot is the sequence of machine records in id order. This module gives
    the plain meaning of every view the engine reads from one: a filter, in a
    stable sort order. */
module Views {
  import opened Resources
  import opened Fleet
  import opened Scoring
  import opened Sequences

  datatype Query =
    | InState(st: State)
    | Creditable
    | OfType(st: State, ty: string)
    | Bound(cl: string, st: State)
    | InFlightFor(n: Need, gang: bool)
    | Without(ids: set<MachineId>)
    | Available(n: Need, key: string, v: string, taken: set<MachineId>)
    | Incumbent(n: Need, yes: bool)
    | Victim(p: Profile)
    | Carrying(p: Profile, key: string, v: string)

  /** The machine carries the gang's own attribution: same Profile, same Group. */
  predicate OwnedBy(n: Need, m: Machine) {
    m.assignedGroup == n.group && m.assignedProfile == Some(n.profile)
  }

  predicate Holds(q: Query, m: Machine) {
    match q
    case InState(st) => m.state == st
    case Creditable => m.state == Configured || m.state == Configuring || m.state == Creating
    case OfType(st, ty) => m.state == st && m.instanceType == ty && ty != ""
    case Bound(cl, st) => m.state == st && m.cluster == cl && cl != ""
    case InFlightFor(n, gang) =>
      m.state == Creating && m.assignedProfile == Some(n.profile) && (gang ==> m.assignedGroup == n.group)
    case Without(ids) => m.id !in ids
    case Available(n, key, v, taken) => m.id !in taken && Fits(n, m) && Lookup(key, m) == Some(v)
    case Incumbent(n, yes) => OwnedBy(n, m) == yes
    case Victim(p) => m.assignedPriority < p.priority && Matches(p, m)
    case Carrying(p, key, v) => Matches(p, m) && Lookup(key, m) == Some(v)
  }

  function Select(q: Query, ms: seq<Machine>): seq<Machine> {
    if ms == [] then []
    else if Holds(q, ms[0]) then [ms[0]] + Select(q, ms[1..])
    else Select(q, ms[1..])
  }

  datatype Order =
    | IdOrder
    | ByPrice
    | KeepPriority
    | ByCost(penalty: Penalty)
    | ByScore(preemptor: int, drainSeconds: real, weights: Weights)

  predicate Before(o: Order, a: Machine, b: Machine) {
    match o
    case IdOrder => a.id < b.id
    case ByPrice => if a.price != b.price then a.price < b.price else a.id < b.id
    case KeepPriority =>
      if a.price != b.price then a.price < b.price
      else if a.assignedReclamation != b.assignedReclamation then b.assignedReclamation.Less(a.assignedReclamation)
      else a.id < b.id
    case ByCost(penalty) =>
      var x, y := EffectiveCost(a, penalty), EffectiveCost(b, penalty);
      if !x.Same(y) then x.Less(y) else a.id < b.id
    case ByScore(preemptor, drainSeconds, w) =>
      var x, y := VictimScore(preemptor, a, drainSeconds, w), VictimScore(preemptor, b, drainSeconds, w);
      if x != y then x > y else a.id < b.id
  }

  /** The order in which bound machines are worth keeping: the cheaper first; of equal price
      the one whose reclamation costs more; then the lesser id. */
  predicate WorthKeeping(a: Machine, b: Machine) {
    || a.price < b.price
    || (a.price == b.price && b.assignedReclamation.Less(a.assignedReclamation))
    || (a.price == b.price && a.assignedReclamation == b.assignedReclamation && a.id < b.id)
  }

  /** The order compares numbers only. By an unbounded penalty, machines without risk
      compare as neither cheaper nor dearer than any other. */
  predicate Coherent(o: Order) {
    o.ByCost? ==> o.penalty.Amount?
  }

  function Insert(o: Order, m: Machine, s: seq<Machine>): seq<Machine> {
    if s == [] || !Before(o, s[0], m) then [m] + s
    else [s[0]] + Insert(o, m, s[1..])
  }

  /** The stable sort the library call performs. */
  function Sort(o: Order, s: seq<Machine>): seq<Machine> {
    if s == [] then [] else Insert(o, s[0], Sort(o, s[1..]))
  }

  predicate Sorted(o: Order, s: seq<Machine>) {
    forall i, j | 0 <= i < j < |s| :: !Before(o, s[j], s[i])
  }

  predicate Unique(ms: seq<Machine>) {
    forall i, j | 0 <= i < j < |ms| :: ms[i].id != ms[j].id
  }

  /** The pre-sorted per-(cluster, state) bucket. */
  function ClusterBucket(ms: seq<Machine>, cl: string, st: State): seq<Machine> {
    Sort(KeepPriority, Select(Bound(cl, st), ms))
  }

  /** The pre-sorted per-(state, instance type) bucket. */
  function TypeBucket(ms: seq<Machine>, st: State, ty: string): seq<Machine> {
    Sort(ByPrice, Select(OfType(st, ty), ms))
  }

  function TypeBuckets(ms: seq<Machine>, st: State, types: seq<string>): seq<Machine> {
    if types == [] then [] else TypeBucket(ms, st, types[0]) + TypeBuckets(ms, st, types[1..])
  }

  /** The machines a Profile draws from in one state, before any ordering. */
  function Source(ms: seq<Machine>, st: State, p: Profile): seq<Machine> {
    match PinnedTypes(p)
    case None => Select(InState(st), ms)
    case Some(types) => TypeBuckets(ms, st, types)
  }

  function PoolOrder(st: State, p: Profile): Order {
    match st
    case Idle => ByPrice
    case Speculative => ByCost(PenaltyDollars(p.interruption))
    case _ => IdOrder
  }

  /** The sorted candidate pool for one (state, Profile). */
  function Pool(ms: seq<Machine>, st: State, p: Profile): seq<Machine> {
    Sort(PoolOrder(st, p), Source(ms, st, p))
  }

  function IdSet(ms: seq<Machine>): set<MachineId> {
    set m | m in ms :: m.id
  }

  function SumAlloc(ms: seq<Machine>): ResVec {
    if ms == [] then map[] else Add(Alloc(ms[0]), SumAlloc(ms[1..]))
  }

  lemma SumHead(h: Machine, t: seq<Machine>)
    ensures SumAlloc([h] + t) == Add(Alloc(h), SumAlloc(t))
  {
    assert ([h] + t)[1..] == t;
  }

  lemma {:induction false} SumLast(ms: seq<Machine>, m: Machine)
    ensures SumAlloc(ms + [m]) == Add(SumAlloc(ms), Alloc(m))
    decreases |ms|
  {
    if ms == [] {
      AddNothing(Alloc(m));
      SumHead(m, []);
      assert ms + [m] == [m] + [];
    } else {
      var h, t := ms[0], ms[1..];
      assert ms == [h] + t && ms + [m] == [h] + (t + [m]);
      SumLast(t, m);
      SumHead(h, t);
      SumHead(h, t + [m]);
      AddAssoc(Alloc(h), SumAlloc(t), Alloc(m));
    }
  }

  lemma CoversSplit(h: Machine, t: seq<Machine>, rem: ResVec)
    ensures Covers(SumAlloc([h] + t), rem) <==> Covers(SumAlloc(t), Sub(rem, Alloc(h)))
  {
    SumHead(h, t);
    ResidualZero(rem, Add(Alloc(h), SumAlloc(t)));
    ResidualZero(Sub(rem, Alloc(h)), SumAlloc(t));
    SubSub(rem, Alloc(h), SumAlloc(t));
  }

  lemma NothingCovers(rem: ResVec)
    ensures Covers(SumAlloc([]), rem) <==> IsZero(rem)
  {
    ResidualZero(rem, map[]);
    SubNothing(rem);
  }

  lemma ShorterFails(h: Machine, rest: seq<Machine>, rem: ResVec, k: nat)
    requires k <= |rest| && !IsZero(rem) && (k > 0 ==> !Covers(SumAlloc(rest[..k - 1]), Sub(rem, Alloc(h))))
    ensures !Covers(SumAlloc(([h] + rest)[..k]), rem)
  {
    if k > 0 {
      assert ([h] + rest)[..k] == [h] + rest[..k - 1];
      CoversSplit(h, rest[..k - 1], rem);
    } else {
      assert ([h] + rest)[..0] == [];
      NothingCovers(rem);
    }
  }

  lemma SelectIn(q: Query, ms: seq<Machine>, m: Machine)
    ensures m in Select(q, ms) <==> m in ms && Holds(q, m)
  {
    if ms != [] {
      SelectIn(q, ms[1..], m);
    }
  }

  lemma SelectUnique(q: Query, ms: seq<Machine>)
    requires Unique(ms)
    ensures Unique(Select(q, ms))
  {
    if ms != [] {
      SelectUnique(q, ms[1..]);
      if Holds(q, ms[0]) {
        forall k | 0 <= k < |Select(q, ms[1..])|
          ensures Select(q, ms[1..])[k].id != ms[0].id
        {
          SelectIn(q, ms[1..], Select(q, ms[1..])[k]);
        }
      }
    }
  }

  lemma SelectConcat(q: Query, a: seq<Machine>, b: seq<Machine>)
    ensures Select(q, a + b) == Select(q, a) + Select(q, b)
  {
    if a == [] {
      assert a + b == b;
    } else {
      assert (a + b)[1..] == a[1..] + b;
      SelectConcat(q, a[1..], b);
    }
  }

  /** Filtering by a weaker query first changes nothing. */
  lemma SelectThrough(q: Query, weaker: Query, ms: seq<Machine>)
    requires forall m | m in ms :: Holds(q, m) ==> Holds(weaker, m)
    ensures Select(q, Select(weaker, ms)) == Select(q, ms)
  {
    if ms != [] {
      assert ms[0] in ms;
      SelectThrough(q, weaker, ms[1..]);
      if Holds(weaker, ms[0]) {
        assert Select(weaker, ms)[1..] == Select(weaker, ms[1..]);
      }
    }
  }

  lemma SelectSwap(p: Query, q: Query, ms: seq<Machine>)
    ensures Select(p, Select(q, ms)) == Select(q, Select(p, ms))
  {
    if ms != [] {
      SelectSwap(p, q, ms[1..]);
    }
  }

  lemma InsertMultiset(o: Order, m: Machine, s: seq<Machine>)
    ensures multiset(Insert(o, m, s)) == multiset([m]) + multiset(s)
  {
    if s != [] && Before(o, s[0], m) {
      InsertMultiset(o, m, s[1..]);
      assert s == [s[0]] + s[1..];
    }
  }

  lemma SortMultiset(o: Order, s: seq<Machine>)
    ensures multiset(Sort(o, s)) == multiset(s)
  {
    if s != [] {
      SortMultiset(o, s[1..]);
      InsertMultiset(o, s[0], Sort(o, s[1..]));
      assert s == [s[0]] + s[1..];
    }
  }

  lemma SortIn(o: Order, s: seq<Machine>, m: Machine)
    ensures m in Sort(o, s) <==> m in s
  {
    SortMultiset(o, s);
    assert m in multiset(Sort(o, s)) <==> m in multiset(s);
  }

  lemma InsertUnique(o: Order, m: Machine, s: seq<Machine>)
    requires Unique(s) && forall x | x in s :: x.id != m.id
    ensures Unique(Insert(o, m, s))
  {
    if s != [] && Before(o, s[0], m) {
      InsertUnique(o, m, s[1..]);
      forall x | x in Insert(o, m, s[1..])
        ensures x.id != s[0].id
      {
        InsertIn(o, m, s[1..], x);
      }
    }
  }

  lemma SortUnique(o: Order, s: seq<Machine>)
    requires Unique(s)
    ensures Unique(Sort(o, s))
  {
    if s != [] {
      SortUnique(o, s[1..]);
      forall x | x in Sort(o, s[1..])
        ensures x.id != s[0].id
      {
        SortIn(o, s[1..], x);
      }
      InsertUnique(o, s[0], Sort(o, s[1..]));
    }
  }

  lemma UniqueConcat(a: seq<Machine>, b: seq<Machine>)
    requires Unique(a) && Unique(b) && forall x, y | x in a && y in b :: x.id != y.id
    ensures Unique(a + b)
  {
    var s := a + b;
    forall i, j | 0 <= i < j < |s|
      ensures s[i].id != s[j].id
    {
      if i < |a| <= j {
        assert s[i] in a && s[j] in b;
      }
    }
  }

  lemma IdFixes(ms: seq<Machine>, x: Machine, y: Machine)
    requires Unique(ms) && x in ms && y in ms && x.id == y.id
    ensures x == y
  {
  }

  lemma StatesApart(ms: seq<Machine>, a: seq<Machine>, b: seq<Machine>)
    requires Unique(ms) && Unique(a) && Unique(b)
    requires forall x | x in a + b :: x in ms
    requires forall x, y | x in a && y in b :: x.state != y.state
    ensures Unique(a + b)
  {
    forall x, y | x in a && y in b
      ensures x.id != y.id
    {
      assert x in a + b && y in a + b;
      if x.id == y.id {
        IdFixes(ms, x, y);
      }
    }
    UniqueConcat(a, b);
  }

  /** The comparators are strict weak orders, where they compare numbers. */
  lemma BeforeOrder(o: Order, a: Machine, b: Machine, c: Machine)
    ensures Before(o, a, b) ==> !Before(o, b, a)
    ensures Coherent(o) && !Before(o, c, b) && !Before(o, b, a) ==> !Before(o, c, a)
  {
  }

  lemma InsertIn(o: Order, m: Machine, s: seq<Machine>, x: Machine)
    ensures x in Insert(o, m, s) <==> x == m || x in s
  {
    InsertMultiset(o, m, s);
    assert x in multiset(Insert(o, m, s)) <==> x in multiset([m]) + multiset(s);
  }

  lemma SortedCons(o: Order, h: Machine, t: seq<Machine>)
    requires Sorted(o, t)
    requires forall x | x in t :: !Before(o, x, h)
    ensures Sorted(o, [h] + t)
  {
  }

  lemma InsertSorted(o: Order, m: Machine, s: seq<Machine>)
    requires Coherent(o) && Sorted(o, s)
    ensures Sorted(o, Insert(o, m, s))
  {
    if s != [] {
      var above := if Before(o, s[0], m) then Insert(o, m, s[1..]) else s;
      var low := if Before(o, s[0], m) then s[0] else m;
      if Before(o, s[0], m) {
        InsertSorted(o, m, s[1..]);
      }
      forall x | x in above
        ensures !Before(o, x, low)
      {
        InsertIn(o, m, s[1..], x);
        BeforeOrder(o, s[0], m, x);
        BeforeOrder(o, m, s[0], x);
      }
      SortedCons(o, low, above);
    }
  }

  lemma SortSorted(o: Order, s: seq<Machine>)
    requires Coherent(o)
    ensures Sorted(o, Sort(o, s))
  {
    if s != [] {
      SortSorted(o, s[1..]);
      InsertSorted(o, s[0], Sort(o, s[1..]));
    }
  }

  lemma SortedStays(o: Order, s: seq<Machine>)
    requires Sorted(o, s)
    ensures Sort(o, s) == s
  {
    if s != [] {
      SortedStays(o, s[1..]);
    }
  }

  lemma SelectHead(q: Query, m: Machine, t: seq<Machine>)
    ensures Select(q, [m] + t) == if Holds(q, m) then [m] + Select(q, t) else Select(q, t)
  {
    assert ([m] + t)[1..] == t;
  }

  lemma InsertAhead(o: Order, m: Machine, s: seq<Machine>)
    requires forall x | x in s :: !Before(o, x, m)
    ensures Insert(o, m, s) == [m] + s
  {
    assert s != [] ==> s[0] in s;
  }

  lemma InsertBehind(o: Order, m: Machine, h: Machine, t: seq<Machine>)
    requires Before(o, h, m)
    ensures Insert(o, m, [h] + t) == [h] + Insert(o, m, t)
  {
    assert ([h] + t)[1..] == t;
  }

  lemma {:induction false} SelectInsert(q: Query, o: Order, m: Machine, s: seq<Machine>)
    requires Coherent(o) && Sorted(o, s)
    ensures Select(q, Insert(o, m, s)) ==
            if Holds(q, m) then Insert(o, m, Select(q, s)) else Select(q, s)
    decreases |s|
  {
    if s == [] || !Before(o, s[0], m) {
      SelectHead(q, m, s);
      forall x | x in Select(q, s)
        ensures !Before(o, x, m)
      {
        SelectIn(q, s, x);
        NoneEarlier(o, m, s, x);
      }
      InsertAhead(o, m, Select(q, s));
    } else {
      var h, t := s[0], s[1..];
      assert s == [h] + t;
      SelectInsert(q, o, m, t);
      InsertBehind(o, m, h, t);
      SelectHead(q, h, t);
      SelectHead(q, h, Insert(o, m, t));
      InsertBehind(o, m, h, Select(q, t));
    }
  }

  lemma NoneEarlier(o: Order, m: Machine, s: seq<Machine>, x: Machine)
    requires Coherent(o) && Sorted(o, s) && x in s && !Before(o, s[0], m)
    ensures !Before(o, x, m)
  {
    var j :| 0 <= j < |s| && s[j] == x;
    if j > 0 {
      BeforeOrder(o, m, s[0], x);
    }
  }

  /** Filtering a sorted view is sorting the filtered machines. */
  lemma SelectSort(q: Query, o: Order, s: seq<Machine>)
    requires Coherent(o)
    ensures Select(q, Sort(o, s)) == Sort(o, Select(q, s))
  {
    if s != [] {
      SelectSort(q, o, s[1..]);
      SortSorted(o, s[1..]);
      SelectInsert(q, o, s[0], Sort(o, s[1..]));
      if Holds(q, s[0]) {
        assert Select(q, s)[1..] == Select(q, s[1..]);
      }
    }
  }

  lemma ClusterBucketIn(ms: seq<Machine>, cl: string, st: State, m: Machine)
    ensures m in ClusterBucket(ms, cl, st) <==> m in ms && m.state == st && m.cluster == cl && cl != ""
  {
    SortIn(KeepPriority, Select(Bound(cl, st), ms), m);
    SelectIn(Bound(cl, st), ms, m);
  }

  lemma TypeBucketsIn(ms: seq<Machine>, st: State, types: seq<string>, m: Machine)
    ensures m in TypeBuckets(ms, st, types) <==>
            m in ms && m.state == st && m.instanceType in types && m.instanceType != ""
  {
    if types != [] {
      SortIn(ByPrice, Select(OfType(st, types[0]), ms), m);
      SelectIn(OfType(st, types[0]), ms, m);
      TypeBucketsIn(ms, st, types[1..], m);
    }
  }

  /** What a pool holds: every machine of the state, except that a Profile pinned
      to instance types sees only machines that declare one of them. */
  lemma PoolIn(ms: seq<Machine>, st: State, p: Profile, m: Machine)
    ensures m in Pool(ms, st, p) <==>
            m in ms && m.state == st &&
            (PinnedTypes(p).Some? ==> m.instanceType in PinnedTypes(p).value && m.instanceType != "")
  {
    SortIn(PoolOrder(st, p), Source(ms, st, p), m);
    SourceIn(ms, st, p, m);
  }

  /** A matching machine of the state is in the pool unless the Profile is pinned
      and the machine carries its instance type only as a label. */
  lemma PoolMisses(ms: seq<Machine>, st: State, p: Profile, m: Machine)
    requires m in ms && m.state == st && Matches(p, m)
    ensures m in Pool(ms, st, p) <==> PinnedTypes(p).None? || m.instanceType != ""
  {
    PoolIn(ms, st, p, m);
    if PinnedTypes(p).Some? && m.instanceType != "" {
      PinnedRequirement(p.requirements);
      assert MatchRequirement(Requirement(INSTANCE_TYPE_KEY, In, PinnedTypes(p).value), m);
    }
  }

  lemma FreeSource(ms: seq<Machine>, st: State, p: Profile, m: Machine)
    requires m in ms && Matches(p, m)
    ensures m in Source(ms, st, p) <==> m.state == st && (PinnedTypes(p).Some? ==> m.instanceType != "")
  {
    SourceIn(ms, st, p, m);
    if m.state == st {
      PoolMisses(ms, st, p, m);
      PoolIn(ms, st, p, m);
    }
  }

  lemma TypeBucketsUnique(ms: seq<Machine>, st: State, types: seq<string>)
    requires Unique(ms) && Distinct(types)
    ensures Unique(TypeBuckets(ms, st, types))
  {
    if types != [] {
      var a, b := TypeBucket(ms, st, types[0]), TypeBuckets(ms, st, types[1..]);
      TypeBucketsUnique(ms, st, types[1..]);
      SelectUnique(OfType(st, types[0]), ms);
      SortUnique(ByPrice, Select(OfType(st, types[0]), ms));
      forall x, y | x in a && y in b
        ensures x.id != y.id
      {
        SortIn(ByPrice, Select(OfType(st, types[0]), ms), x);
        SelectIn(OfType(st, types[0]), ms, x);
        TypeBucketsIn(ms, st, types[1..], y);
        assert y.instanceType in types[1..] && types[0] !in types[1..];
      }
      UniqueConcat(a, b);
    }
  }

  /** A Profile's pinned types are distinct. */
  predicate PinsDistinct(p: Profile) {
    PinnedTypes(p).Some? ==> Distinct(PinnedTypes(p).value)
  }

  lemma SourceUnique(ms: seq<Machine>, st: State, p: Profile)
    requires Unique(ms) && PinsDistinct(p)
    ensures Unique(Source(ms, st, p))
  {
    match PinnedTypes(p)
    case None => SelectUnique(InState(st), ms);
    case Some(types) => TypeBucketsUnique(ms, st, types);
  }

  lemma SourceIn(ms: seq<Machine>, st: State, p: Profile, m: Machine)
    ensures m in Source(ms, st, p) <==>
            m in ms && m.state == st &&
            (PinnedTypes(p).Some? ==> m.instanceType in PinnedTypes(p).value && m.instanceType != "")
  {
    match PinnedTypes(p)
    case None => SelectIn(InState(st), ms, m);
    case Some(types) => TypeBucketsIn(ms, st, types, m);
  }

  /** The bound buckets are kept in that order. */
  lemma KeepPriorityMeans(a: Machine, b: Machine)
    ensures Before(KeepPriority, a, b) <==> WorthKeeping(a, b)
  {
  }
}
