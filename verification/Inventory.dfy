/** The machine store and the indexed snapshot the decision engine reads. */
module Inventory {
  import opened Fleet
  import opened Scoring
  import opened Views
  import opened Sequences

  /** The legal state machine; any transitional state may fail. */
  predicate CanTransition(from: State, to: State) {
    if to == Failed then from == Creating || from == Configuring || from == Draining || from == Deleting
    else
      match from
      case Speculative => to == Creating
      case Creating => to == Idle
      case Idle => to == Configuring || to == Deleting
      case Configuring => to == Configured || to == Idle
      case Configured => to == Draining
      case Draining => to == Idle
      case Deleting => to == Speculative
      case _ => false
  }

  /** Consecutive states of one machine. */
  predicate Path(states: seq<State>) {
    forall i | 0 <= i < |states| - 1 :: CanTransition(states[i], states[i + 1])
  }

  /** A machine is bound again only after it was drained, has been Idle, and went through
      Configuring once more; it never comes back from a failure. */
  lemma Rebinding(states: seq<State>)
    requires Path(states) && |states| > 1 && states[0] == Configured && states[|states| - 1] == Configured
    ensures |states| >= 5 && states[1] == Draining && states[2] == Idle
    ensures states[|states| - 3] == Idle && states[|states| - 2] == Configuring
    ensures Failed !in states
  {
    var n := |states|;
    forall i | 0 <= i < n - 1
      ensures states[i] != Failed
    {
      assert CanTransition(states[i], states[i + 1]);
    }
    assert CanTransition(states[0], states[1]) && CanTransition(states[n - 2], states[n - 1]);
    assert n > 2 && CanTransition(states[1], states[2]);
    assert n > 3 && CanTransition(states[2], states[3]) && CanTransition(states[n - 3], states[n - 2]);
  }

  predicate Resting(st: State) {
    st == Speculative || st == Idle || st == Configured
  }

  /** What two steps can do between states a machine may rest in: it is created, bound, or given
      up being bound, drained, deleted, and nothing else. Only a machine on its way may fail;
      from failure, and from nowhere, leads no way. */
  lemma TwoSteps(a: State, t: State, b: State)
    ensures Resting(a) && Resting(b) ==>
              (CanTransition(a, t) && CanTransition(t, b) <==>
               || (a == Speculative && t == Creating && b == Idle)
               || (a == Idle && t == Configuring && (b == Configured || b == Idle))
               || (a == Configured && t == Draining && b == Idle)
               || (a == Idle && t == Deleting && b == Speculative))
    ensures Resting(a) && CanTransition(a, t) ==> !Resting(t) && t != Failed
    ensures CanTransition(t, Failed) <==> t == Creating || t == Configuring || t == Draining || t == Deleting
    ensures !CanTransition(Failed, b) && !CanTransition(Unspecified, b) && !CanTransition(a, Unspecified)
    ensures !Resting(a) && !Resting(b) && CanTransition(a, b) ==> b == Failed
  {
  }

  predicate WellFormed(m: Machine) {
    && (match m.state
        case Speculative => !m.hosted && m.cluster == ""
        case Creating => !m.hosted && m.cluster == ""
        case Configured => m.hosted && m.cluster != ""
        case Draining => m.hosted && m.cluster != ""
        case Failed => m.lastError != ""
        case Unspecified => false
        case _ => m.hosted)
    && 0.0 <= m.interruptionProbability <= 1.0 && m.price >= 0.0
  }

  datatype Reply = Stored | Invalid | Duplicate | NotFound | IllegalTransition

  class Store {
    var byID: map<MachineId, Machine>
    var idleSince: map<MachineId, int>

    constructor ()
      ensures Valid() && byID == map[]
    {
      byID, idleSince := map[], map[];
    }

    /** Records are filed under their own id and well-formed, and exactly the Idle ones
        carry a stamp. */
    ghost predicate Valid()
      reads this
    {
      && (forall id | id in byID :: byID[id].id == id && WellFormed(byID[id]))
      && (forall id :: id in idleSince <==> id in byID && byID[id].state == Idle)
    }

    method Insert(m: Machine, now: int) returns (r: Reply)
      requires Valid()
      modifies this
      ensures Valid()
      ensures r == if !WellFormed(m) then Invalid else if m.id in old(byID) then Duplicate else Stored
      ensures byID == if r == Stored then old(byID)[m.id := m] else old(byID)
      ensures idleSince == if r == Stored && m.state == Idle then old(idleSince)[m.id := now] else old(idleSince)
    {
      if !WellFormed(m) {
        return Invalid;
      }
      if m.id in byID {
        return Duplicate;
      }
      byID := byID[m.id := m];
      if m.state == Idle {
        idleSince := idleSince[m.id := now];
      }
      r := Stored;
    }

    /** Replaces a record. The stamp is set on entry to Idle, kept while Idle, and
        dropped on leaving. */
    method Apply(m: Machine, now: int) returns (r: Reply)
      requires Valid()
      modifies this
      ensures Valid()
      ensures r == ApplyReply(old(byID), m)
      ensures byID == if r == Stored then old(byID)[m.id := m] else old(byID)
      ensures r != Stored ==> idleSince == old(idleSince)
      ensures r == Stored && m.state != Idle ==> idleSince == old(idleSince) - {m.id}
      ensures r == Stored && m.state == Idle ==>
                (idleSince == if old(byID)[m.id].state == Idle then old(idleSince) else old(idleSince)[m.id := now])
    {
      if !WellFormed(m) {
        return Invalid;
      }
      if m.id !in byID {
        return NotFound;
      }
      var was := byID[m.id];
      if was.state != m.state && !CanTransition(was.state, m.state) {
        return IllegalTransition;
      }
      byID := byID[m.id := m];
      if m.state == Idle && was.state != Idle {
        idleSince := idleSince[m.id := now];
      } else if m.state != Idle {
        idleSince := idleSince - {m.id};
      }
      r := Stored;
    }

    method Remove(id: MachineId) returns (r: Reply)
      requires Valid()
      modifies this
      ensures Valid()
      ensures r == if id in old(byID) then Stored else NotFound
      ensures byID == old(byID) - {id} && idleSince == old(idleSince) - {id}
    {
      if id !in byID {
        assert byID == byID - {id} && idleSince == idleSince - {id};
        return NotFound;
      }
      byID := byID - {id};
      idleSince := idleSince - {id};
      r := Stored;
    }

    /** The records in id order, with every index derived from them. */
    method TakeSnapshot() returns (s: Snapshot)
      requires Valid()
      ensures s.Agrees() && Ascending(s.machines)
      ensures forall m :: m in s.machines <==> m.id in byID && byID[m.id] == m
      ensures s.idleSince == idleSince
    {
      var machines := Records(byID);
      var idx, byState, byCluster, byType := IndexAll(machines);
      ListedIds(machines, idx, byCluster, byType, byState);
      var types := Buckets(machines, idx, byType, ByPrice);
      var clusters := Buckets(machines, idx, byCluster, KeepPriority);
      BucketsAgree(machines, idx, byCluster, byType, byState, types, clusters);
      var minByType, minByState := Minima(machines, idx, byState, types);
      MinimaAgree(machines, types, minByType);
      s := Snapshot(machines, idx, byState, byCluster, byType, types, clusters, minByType, minByState, idleSince);
    }
  }

  function ApplyReply(byID: map<MachineId, Machine>, m: Machine): Reply {
    if !WellFormed(m) then Invalid
    else if m.id !in byID then NotFound
    else if byID[m.id].state != m.state && !CanTransition(byID[m.id].state, m.state) then IllegalTransition
    else Stored
  }

  // ---- The snapshot -------------------------------------------------------

  predicate Ascending(ms: seq<Machine>) {
    forall i, j | 0 <= i < j < |ms| :: ms[i].id < ms[j].id
  }

  /** A set of records has one listing in id order. */
  lemma {:induction false} AscendingUnique(a: seq<Machine>, b: seq<Machine>)
    requires Ascending(a) && Ascending(b)
    requires forall m :: m in a <==> m in b
    ensures a == b
    decreases |a|
  {
    if a == [] {
      SomeElement(b);
    } else {
      assert a[0] in b && b[0] in a;
      var i :| 0 <= i < |b| && b[i] == a[0];
      var j :| 0 <= j < |a| && a[j] == b[0];
      assert a[0] == b[0];
      forall m
        ensures m in a[1..] <==> m in b[1..]
      {
        assert m in a <==> m == a[0] || m in a[1..];
        assert m in b <==> m == b[0] || m in b[1..];
        assert m == a[0] ==> m !in a[1..] && m !in b[1..];
      }
      AscendingUnique(a[1..], b[1..]);
    }
  }

  function Ids(ms: seq<Machine>): seq<MachineId> {
    seq(|ms|, i requires 0 <= i < |ms| => ms[i].id)
  }

  function Cell<K, V>(m: map<K, seq<V>>, k: K): seq<V> {
    if k in m then m[k] else []
  }

  function Row<J, K, V>(m: map<J, map<K, V>>, j: J): map<K, V> {
    if j in m then m[j] else map[]
  }

  datatype Snapshot = Snapshot(
    machines: seq<Machine>,
    byID: map<MachineId, nat>,
    byState: map<State, seq<MachineId>>,
    byCluster: map<string, map<State, seq<MachineId>>>,
    byType: map<State, map<string, seq<MachineId>>>,
    typeBuckets: map<State, map<string, seq<Machine>>>,
    clusterBuckets: map<string, map<State, seq<Machine>>>,
    minByType: map<State, map<string, int>>,
    minByState: map<State, int>,
    idleSince: map<MachineId, int>)
  {
    /** Every index says what a plain walk over the records would. */
    ghost predicate Agrees() {
      && Numbered(machines, byID)
      && (forall st :: Cell(byState, st) == Ids(Select(InState(st), machines)))
      && (forall cl, st :: Cell(Row(byCluster, cl), st) == Ids(Select(Bound(cl, st), machines)))
      && (forall st, ty :: Cell(Row(byType, st), ty) == Ids(Select(OfType(st, ty), machines)))
      && (forall st, ty :: Cell(Row(typeBuckets, st), ty) == TypeBucket(machines, st, ty))
      && (forall cl, st :: Cell(Row(clusterBuckets, cl), st) == ClusterBucket(machines, cl, st))
      && (forall st, ty :: LeastOf(Row(minByType, st), ty) == LeastPriority(Select(OfType(st, ty), machines)))
      && (forall st :: LeastOf(minByState, st) ==
            if HasTyped(machines, st) then LeastPriority(Select(InState(st), machines)) else MAX_INT32)
    }

    /** The shared bucket: the plain filter by state and type, in price order. */
    function ListByStateInstanceType(st: State, ty: string): (r: seq<Machine>)
      requires Agrees()
      ensures r == Sort(ByPrice, Select(OfType(st, ty), machines))
    {
      assert Cell(Row(typeBuckets, st), ty) == TypeBucket(machines, st, ty);
      if st in typeBuckets then Cell(typeBuckets[st], ty) else []
    }

    /** The shared bucket: the plain filter by cluster and state, in keep-priority order. */
    function SortedClusterStateBucket(cl: string, st: State): (r: seq<Machine>)
      requires Agrees()
      ensures r == Sort(KeepPriority, Select(Bound(cl, st), machines))
    {
      assert Cell(Row(clusterBuckets, cl), st) == ClusterBucket(machines, cl, st);
      if cl in clusterBuckets then Cell(clusterBuckets[cl], st) else []
    }

    method ListByState(st: State) returns (r: seq<Machine>)
      requires Agrees()
      ensures r == Select(InState(st), machines)
    {
      r := Fetch(InState(st), Cell(byState, st));
    }

    method ListByClusterState(cl: string, st: State) returns (r: seq<Machine>)
      requires Agrees()
      ensures r == Select(Bound(cl, st), machines)
    {
      assert Cell(Row(byCluster, cl), st) == Ids(Select(Bound(cl, st), machines));
      if cl !in byCluster {
        assert |Ids(Select(Bound(cl, st), machines))| == 0;
        return [];
      }
      r := Fetch(Bound(cl, st), Cell(byCluster[cl], st));
    }

    method Fetch(ghost q: Query, ids: seq<MachineId>) returns (r: seq<Machine>)
      requires Agrees() && ids == Ids(Select(q, machines))
      ensures r == Select(q, machines)
    {
      SelectedKnown(machines, byID, q);
      r := [];
      for k := 0 to |ids|
        invariant r == Resolve(machines, byID, ids)[..k]
      {
        assert ids[k] in ids;
        r := r + [machines[byID[ids[k]]]];
      }
    }

    /** The least priority assigned in the state, but only where some machine of the
        state declares an instance type; otherwise the greatest 32-bit value. */
    function MinAssignedPriority(st: State): (r: int)
      requires Agrees()
      ensures r == if HasTyped(machines, st) then LeastPriority(Select(InState(st), machines)) else MAX_INT32
    {
      if st in minByState then minByState[st] else MAX_INT32
    }

    function MinAssignedPriorityByInstanceType(st: State, ty: string): (r: int)
      requires Agrees()
      ensures r == LeastPriority(Select(OfType(st, ty), machines))
    {
      assert LeastOf(Row(minByType, st), ty) == LeastPriority(Select(OfType(st, ty), machines));
      if st in minByType then LeastOf(minByType[st], ty) else MAX_INT32
    }
  }

  /** The comparators leave no ties between distinct machines, so every sort by them,
      stable or not, gives the same list. */
  lemma NoTies(o: Order, a: Machine, b: Machine)
    requires Coherent(o)
    ensures a.id != b.id ==> Before(o, a, b) || Before(o, b, a)
  {
  }

  lemma {:induction false} AnySort(o: Order, a: seq<Machine>, b: seq<Machine>)
    requires Coherent(o) && Sorted(o, a) && Sorted(o, b) && multiset(a) == multiset(b)
    requires forall x, y | x in a && y in a && x.id == y.id :: x == y
    ensures a == b
    decreases |a|
  {
    assert |multiset(a)| == |a| && |multiset(b)| == |b|;
    if a != [] {
      SameHead(o, a, b);
      var h, s, t := a[0], a[1..], b[1..];
      SameRest(h, s, a, t, b);
      AnySort(o, s, t);
    }
  }

  lemma SameRest<T>(h: T, s: seq<T>, a: seq<T>, t: seq<T>, b: seq<T>)
    requires a == [h] + s && b == [h] + t && multiset(a) == multiset(b)
    ensures multiset(s) == multiset(t)
  {
    assert multiset(s) == multiset(a) - multiset{h};
    assert multiset(t) == multiset(b) - multiset{h};
  }

  lemma SameHead(o: Order, a: seq<Machine>, b: seq<Machine>)
    requires Coherent(o) && Sorted(o, a) && Sorted(o, b) && multiset(a) == multiset(b) && a != [] && b != []
    requires forall x, y | x in a && y in a && x.id == y.id :: x == y
    ensures a[0] == b[0]
  {
    assert a[0] in multiset(b) && b[0] in multiset(a);
    var i :| 0 <= i < |b| && b[i] == a[0];
    var j :| 0 <= j < |a| && a[j] == b[0];
    NoTies(o, a[0], b[0]);
  }

  /** The index positions of the records. */
  ghost predicate Numbered(machines: seq<Machine>, byID: map<MachineId, nat>) {
    && (forall id | id in byID :: byID[id] < |machines| && machines[byID[id]].id == id)
    && (forall i | 0 <= i < |machines| :: machines[i].id in byID && byID[machines[i].id] == i)
  }

  predicate HasTyped(ms: seq<Machine>, st: State) {
    exists m :: m in ms && m.state == st && m.instanceType != ""
  }

  function LeastPriority(ms: seq<Machine>): int {
    if ms == [] then MAX_INT32
    else
      var rest := LeastPriority(ms[1..]);
      if ms[0].assignedPriority < rest then ms[0].assignedPriority else rest
  }

  /** An absent entry reads as the greatest 32-bit priority. */
  function LeastOf<K>(m: map<K, int>, k: K): int {
    if k in m then m[k] else MAX_INT32
  }

  // ---- Building it --------------------------------------------------------

  function InsertId(id: MachineId, ids: seq<MachineId>): seq<MachineId> {
    if ids == [] || id < ids[0] then [id] + ids else [ids[0]] + InsertId(id, ids[1..])
  }

  predicate Increasing(ids: seq<MachineId>) {
    forall i, j | 0 <= i < j < |ids| :: ids[i] < ids[j]
  }

  lemma InsertIncreasing(id: MachineId, ids: seq<MachineId>)
    requires Increasing(ids) && id !in ids
    ensures Increasing(InsertId(id, ids))
    ensures forall x :: x in InsertId(id, ids) <==> x == id || x in ids
  {
    if ids != [] && id >= ids[0] {
      var h, rest := ids[0], InsertId(id, ids[1..]);
      assert h in ids;
      InsertIncreasing(id, ids[1..]);
      forall k | 0 <= k < |rest|
        ensures h < rest[k]
      {
        assert rest[k] in rest;
      }
      assert forall x :: x in ids <==> x == h || x in ids[1..];
    }
  }

  method Records(byID: map<MachineId, Machine>) returns (machines: seq<Machine>)
    requires forall id | id in byID :: byID[id].id == id
    ensures Ascending(machines)
    ensures forall m :: m in machines <==> m.id in byID && byID[m.id] == m
  {
    var ids: seq<MachineId> := [];
    var todo := byID.Keys;
    while todo != {}
      invariant todo <= byID.Keys && Increasing(ids)
      invariant forall id :: id in ids <==> id in byID && id !in todo
      decreases todo
    {
      var id :| id in todo;
      InsertIncreasing(id, ids);
      ids := InsertId(id, ids);
      todo := todo - {id};
    }
    machines := [];
    for i := 0 to |ids|
      invariant |machines| == i
      invariant forall j | 0 <= j < i :: machines[j] == byID[ids[j]]
    {
      machines := machines + [byID[ids[i]]];
    }
    forall m
      ensures m in machines <==> m.id in byID && byID[m.id] == m
    {
      if m.id in byID && byID[m.id] == m {
        var j :| 0 <= j < |ids| && ids[j] == m.id;
        assert machines[j] == m;
      }
    }
  }

  function Push<K>(m: map<K, seq<MachineId>>, k: K, id: MachineId): map<K, seq<MachineId>> {
    m[k := Cell(m, k) + [id]]
  }

  ghost predicate Indexed(pre: seq<Machine>, byState: map<State, seq<MachineId>>,
                          byCluster: map<string, map<State, seq<MachineId>>>,
                          byType: map<State, map<string, seq<MachineId>>>) {
    && (forall st :: Cell(byState, st) == Ids(Select(InState(st), pre)))
    && (forall cl, st :: Cell(Row(byCluster, cl), st) == Ids(Select(Bound(cl, st), pre)))
    && (forall st, ty :: Cell(Row(byType, st), ty) == Ids(Select(OfType(st, ty), pre)))
    && (forall st :: st in byType <==> HasTyped(pre, st))
  }

  lemma SelectLast(q: Query, pre: seq<Machine>, m: Machine)
    ensures Ids(Select(q, pre + [m])) == Ids(Select(q, pre)) + if Holds(q, m) then [m.id] else []
  {
    SelectConcat(q, pre, [m]);
    assert Select(q, [m]) == if Holds(q, m) then [m] else [];
  }

  lemma TypedLast(pre: seq<Machine>, m: Machine, st: State)
    ensures HasTyped(pre + [m], st) <==> HasTyped(pre, st) || (m.state == st && m.instanceType != "")
  {
    assert m in pre + [m];
    if HasTyped(pre, st) {
      var x :| x in pre && x.state == st && x.instanceType != "";
      assert x in pre + [m];
    }
  }

  lemma StateStep(pre: seq<Machine>, m: Machine, byState: map<State, seq<MachineId>>)
    requires forall st :: Cell(byState, st) == Ids(Select(InState(st), pre))
    ensures forall st :: Cell(Push(byState, m.state, m.id), st) == Ids(Select(InState(st), pre + [m]))
  {
    forall st {
      SelectLast(InState(st), pre, m);
    }
  }

  lemma ClusterStep(pre: seq<Machine>, m: Machine, byCluster: map<string, map<State, seq<MachineId>>>)
    requires forall cl, st :: Cell(Row(byCluster, cl), st) == Ids(Select(Bound(cl, st), pre))
    ensures var next := if m.cluster == "" then byCluster
                        else byCluster[m.cluster := Push(Row(byCluster, m.cluster), m.state, m.id)];
            forall cl, st :: Cell(Row(next, cl), st) == Ids(Select(Bound(cl, st), pre + [m]))
  {
    var next := if m.cluster == "" then byCluster
                else byCluster[m.cluster := Push(Row(byCluster, m.cluster), m.state, m.id)];
    forall cl, st
      ensures Cell(Row(next, cl), st) == Ids(Select(Bound(cl, st), pre + [m]))
    {
      SelectLast(Bound(cl, st), pre, m);
      assert Cell(Row(byCluster, cl), st) == Ids(Select(Bound(cl, st), pre));
    }
  }

  lemma TypeStep(pre: seq<Machine>, m: Machine, byType: map<State, map<string, seq<MachineId>>>)
    requires forall st, ty :: Cell(Row(byType, st), ty) == Ids(Select(OfType(st, ty), pre))
    ensures var next := if m.instanceType == "" then byType
                        else byType[m.state := Push(Row(byType, m.state), m.instanceType, m.id)];
            forall st, ty :: Cell(Row(next, st), ty) == Ids(Select(OfType(st, ty), pre + [m]))
  {
    var next := if m.instanceType == "" then byType
                else byType[m.state := Push(Row(byType, m.state), m.instanceType, m.id)];
    forall st, ty
      ensures Cell(Row(next, st), ty) == Ids(Select(OfType(st, ty), pre + [m]))
    {
      SelectLast(OfType(st, ty), pre, m);
      assert Cell(Row(byType, st), ty) == Ids(Select(OfType(st, ty), pre));
    }
  }

  lemma IndexedStep(pre: seq<Machine>, m: Machine, byState: map<State, seq<MachineId>>,
                    byCluster: map<string, map<State, seq<MachineId>>>,
                    byType: map<State, map<string, seq<MachineId>>>)
    requires Indexed(pre, byState, byCluster, byType)
    ensures Indexed(pre + [m], Push(byState, m.state, m.id),
                    if m.cluster == "" then byCluster
                    else byCluster[m.cluster := Push(Row(byCluster, m.cluster), m.state, m.id)],
                    if m.instanceType == "" then byType
                    else byType[m.state := Push(Row(byType, m.state), m.instanceType, m.id)])
  {
    StateStep(pre, m, byState);
    ClusterStep(pre, m, byCluster);
    TypeStep(pre, m, byType);
    forall st {
      TypedLast(pre, m, st);
    }
  }

  lemma NumberedStep(machines: seq<Machine>, i: nat, idx: map<MachineId, nat>)
    requires Ascending(machines) && i < |machines| && Numbered(machines[..i], idx)
    ensures Numbered(machines[..i + 1], idx[machines[i].id := i])
  {
  }

  method IndexAll(machines: seq<Machine>)
    returns (idx: map<MachineId, nat>, byState: map<State, seq<MachineId>>,
             byCluster: map<string, map<State, seq<MachineId>>>, byType: map<State, map<string, seq<MachineId>>>)
    requires Ascending(machines)
    ensures Numbered(machines, idx) && Indexed(machines, byState, byCluster, byType)
  {
    idx, byState, byCluster, byType := map[], map[], map[], map[];
    for i := 0 to |machines|
      invariant Numbered(machines[..i], idx) && Indexed(machines[..i], byState, byCluster, byType)
    {
      var m := machines[i];
      assert machines[..i + 1] == machines[..i] + [m];
      NumberedStep(machines, i, idx);
      IndexedStep(machines[..i], m, byState, byCluster, byType);
      idx := idx[m.id := i];
      byState := Push(byState, m.state, m.id);
      if m.cluster != "" {
        byCluster := byCluster[m.cluster := Push(Row(byCluster, m.cluster), m.state, m.id)];
      }
      if m.instanceType != "" {
        byType := byType[m.state := Push(Row(byType, m.state), m.instanceType, m.id)];
      }
    }
    assert machines[..|machines|] == machines;
  }

  function Gather(machines: seq<Machine>, at: seq<nat>): seq<Machine>
    requires forall k | 0 <= k < |at| :: at[k] < |machines|
  {
    seq(|at|, k requires 0 <= k < |at| => machines[at[k]])
  }

  /** Insertion lands behind the longest prefix of smaller elements. */
  lemma InsertAt(o: Order, x: Machine, pre: seq<Machine>, post: seq<Machine>)
    requires forall k | 0 <= k < |pre| :: Before(o, pre[k], x)
    requires post != [] ==> !Before(o, post[0], x)
    ensures Insert(o, x, pre + post) == pre + ([x] + post)
  {
    if pre == [] {
      assert pre + post == post;
    } else {
      var h, t := pre[0], pre[1..];
      assert pre == [h] + t;
      InsertAt(o, x, t, post);
      InsertBehind(o, x, h, t + post);
      Regroup([h], t, post);
      Regroup([h], t, [x] + post);
    }
  }

  lemma GatherConcat(machines: seq<Machine>, a: seq<nat>, b: seq<nat>)
    requires forall k | k in a + b :: k < |machines|
    ensures (forall k | 0 <= k < |a| :: a[k] < |machines|) && (forall k | 0 <= k < |b| :: b[k] < |machines|)
    ensures (forall k | 0 <= k < |a + b| :: (a + b)[k] < |machines|)
    ensures Gather(machines, a + b) == Gather(machines, a) + Gather(machines, b)
  {
    assert forall k | 0 <= k < |a| :: a[k] in a + b;
    assert forall k | 0 <= k < |b| :: b[k] in a + b;
  }

  lemma SunkShape(was: seq<nat>, at: seq<nat>, j: nat)
    requires |at| == |was| && j < |was| && forall k | 0 <= k < j :: at[k] == was[k + 1]
    requires at[j] == was[0] && forall k | j < k < |was| :: at[k] == was[k]
    ensures was[1..] == at[..j] + at[j + 1..] && at == at[..j] + ([was[0]] + at[j + 1..])
  {
  }

  lemma Sunk(machines: seq<Machine>, was: seq<nat>, at: seq<nat>, j: nat, o: Order)
    requires |at| == |was| && j < |was|
    requires forall k | 0 <= k < |was| :: was[k] < |machines| && at[k] < |machines|
    requires forall k | 0 <= k < j :: at[k] == was[k + 1] && Before(o, machines[at[k]], machines[was[0]])
    requires at[j] == was[0] && forall k | j < k < |was| :: at[k] == was[k]
    requires j + 1 < |was| ==> !Before(o, machines[was[j + 1]], machines[was[0]])
    ensures Gather(machines, at) == Insert(o, machines[was[0]], Gather(machines, was[1..]))
  {
    var a, b := at[..j], at[j + 1..];
    SunkShape(was, at, j);
    GatherConcat(machines, a, b);
    GatherConcat(machines, a, [was[0]] + b);
    GatherConcat(machines, [was[0]], b);
    assert Gather(machines, [was[0]]) == [machines[was[0]]];
    InsertAt(o, machines[was[0]], Gather(machines, a), Gather(machines, b));
  }

  /** The same inside a longer sequence, from position `i` on. */
  lemma SunkFrom(machines: seq<Machine>, was: seq<nat>, at: seq<nat>, i: nat, j: nat, o: Order)
    requires |at| == |was| && i <= j < |was|
    requires forall k | 0 <= k < |was| :: was[k] < |machines| && at[k] < |machines|
    requires forall k | i <= k < j :: at[k] == was[k + 1] && Before(o, machines[at[k]], machines[was[i]])
    requires at[j] == was[i] && forall k | j < k < |was| :: at[k] == was[k]
    requires j + 1 < |was| ==> !Before(o, machines[was[j + 1]], machines[was[i]])
    ensures Gather(machines, at[i..]) == Insert(o, machines[was[i]], Gather(machines, was[i + 1..]))
  {
    assert was[i..][1..] == was[i + 1..];
    Sunk(machines, was[i..], at[i..], j - i, o);
  }

  /** Sinks the element at `i` into the sorted tail behind it. */
  method SinkIndex(machines: seq<Machine>, at: array<nat>, i: nat, o: Order)
    requires i < at.Length && forall k | 0 <= k < at.Length :: at[k] < |machines|
    modifies at
    ensures forall k | 0 <= k < at.Length :: at[k] < |machines|
    ensures at[..i] == old(at[..i])
    ensures Gather(machines, at[i..]) == Insert(o, machines[old(at[i])], Gather(machines, old(at[i + 1..])))
  {
    var x, j := at[i], i;
    ghost var was := at[..];
    while j + 1 < at.Length && Before(o, machines[at[j + 1]], machines[x])
      invariant i <= j < at.Length
      invariant forall k | 0 <= k < at.Length :: at[k] < |machines|
      invariant forall k | 0 <= k < i || j < k < at.Length :: at[k] == was[k]
      invariant forall k | i <= k < j :: at[k] == was[k + 1] && Before(o, machines[at[k]], machines[x])
    {
      at[j] := at[j + 1];
      j := j + 1;
    }
    at[j] := x;
    SunkFrom(machines, was, at[..], i, j, o);
    assert at[..][i..] == at[i..] && was[i + 1..] == old(at[i + 1..]);
  }

  method SortIndices(machines: seq<Machine>, at: array<nat>, o: Order)
    requires forall k | 0 <= k < at.Length :: at[k] < |machines|
    modifies at
    ensures forall k | 0 <= k < at.Length :: at[k] < |machines|
    ensures Gather(machines, at[..]) == Sort(o, Gather(machines, old(at[..])))
  {
    var i := at.Length;
    ghost var was := at[..];
    while i > 0
      invariant 0 <= i <= at.Length
      invariant forall k | 0 <= k < at.Length :: at[k] < |machines|
      invariant at[..i] == was[..i]
      invariant Gather(machines, at[i..]) == Sort(o, Gather(machines, was[i..]))
    {
      i := i - 1;
      assert at[i] == was[i] by {
        assert at[..i + 1][i] == was[..i + 1][i];
      }
      assert Gather(machines, was[i..])[1..] == Gather(machines, was[i + 1..]);
      SinkIndex(machines, at, i, o);
    }
    assert at[0..] == at[..] && was[0..] == was;
  }

  function Resolve(machines: seq<Machine>, byID: map<MachineId, nat>, ids: seq<MachineId>): seq<Machine>
    requires Numbered(machines, byID) && forall id | id in ids :: id in byID
  {
    seq(|ids|, k requires 0 <= k < |ids| => machines[byID[ids[k]]])
  }

  lemma ResolveIds(machines: seq<Machine>, byID: map<MachineId, nat>, ms: seq<Machine>)
    requires Numbered(machines, byID) && forall m | m in ms :: m in machines
    ensures forall id | id in Ids(ms) :: id in byID
    ensures Resolve(machines, byID, Ids(ms)) == ms
  {
    forall k | 0 <= k < |ms|
      ensures ms[k].id in byID && machines[byID[ms[k].id]] == ms[k]
    {
      assert ms[k] in machines;
      var i :| 0 <= i < |machines| && machines[i] == ms[k];
    }
  }

  method OneBucket(machines: seq<Machine>, byID: map<MachineId, nat>, ids: seq<MachineId>, o: Order)
    returns (out: seq<Machine>)
    requires Numbered(machines, byID) && forall id | id in ids :: id in byID
    ensures out == Sort(o, Resolve(machines, byID, ids))
  {
    var at := new nat[|ids|];
    for k := 0 to |ids|
      invariant forall j | 0 <= j < k :: at[j] == byID[ids[j]]
    {
      at[k] := byID[ids[k]];
    }
    assert Gather(machines, at[..]) == Resolve(machines, byID, ids);
    SortIndices(machines, at, o);
    out := [];
    for k := 0 to at.Length
      invariant out == Gather(machines, at[..k])
    {
      out := out + [machines[at[k]]];
    }
    assert at[..at.Length] == at[..];
  }

  ghost predicate Known<J(!new), K(!new)>(byID: map<MachineId, nat>, index: map<J, map<K, seq<MachineId>>>) {
    forall j, k, id | j in index && k in index[j] && id in index[j][k] :: id in byID
  }

  method BucketRow<K(!new)>(machines: seq<Machine>, byID: map<MachineId, nat>, row: map<K, seq<MachineId>>, o: Order)
    returns (out: map<K, seq<Machine>>)
    requires Numbered(machines, byID) && forall k, id | k in row && id in row[k] :: id in byID
    ensures out.Keys == row.Keys
    ensures forall k | k in row :: out[k] == Sort(o, Resolve(machines, byID, row[k]))
  {
    out := map[];
    var todo := row.Keys;
    while todo != {}
      invariant todo <= row.Keys && out.Keys == row.Keys - todo
      invariant forall k | k in out :: out[k] == Sort(o, Resolve(machines, byID, row[k]))
      decreases todo
    {
      var k :| k in todo;
      var bucket := OneBucket(machines, byID, row[k], o);
      out := out[k := bucket];
      todo := todo - {k};
    }
  }

  method Buckets<J(!new), K(!new)>(machines: seq<Machine>, byID: map<MachineId, nat>,
                                   index: map<J, map<K, seq<MachineId>>>, o: Order)
    returns (out: map<J, map<K, seq<Machine>>>)
    requires Numbered(machines, byID) && Known(byID, index)
    ensures out.Keys == index.Keys
    ensures forall j | j in index ::
              out[j].Keys == index[j].Keys &&
              forall k | k in index[j] :: out[j][k] == Sort(o, Resolve(machines, byID, index[j][k]))
  {
    out := map[];
    var todo := index.Keys;
    while todo != {}
      invariant todo <= index.Keys && out.Keys == index.Keys - todo
      invariant forall j | j in out ::
                  out[j].Keys == index[j].Keys &&
                  forall k | k in index[j] :: out[j][k] == Sort(o, Resolve(machines, byID, index[j][k]))
      decreases todo
    {
      var j :| j in todo;
      var row := BucketRow(machines, byID, index[j], o);
      out := out[j := row];
      todo := todo - {j};
    }
  }

  lemma ListedIds(machines: seq<Machine>, byID: map<MachineId, nat>, byCluster: map<string, map<State, seq<MachineId>>>,
                  byType: map<State, map<string, seq<MachineId>>>, byState: map<State, seq<MachineId>>)
    requires Numbered(machines, byID) && Indexed(machines, byState, byCluster, byType)
    ensures Known(byID, byCluster) && Known(byID, byType)
    ensures forall st, id | id in Cell(byState, st) :: id in byID
  {
    forall q {
      SelectedKnown(machines, byID, q);
    }
    forall j, k, id | j in byCluster && k in byCluster[j] && id in byCluster[j][k]
      ensures id in byID
    {
      assert Cell(Row(byCluster, j), k) == Ids(Select(Bound(j, k), machines));
    }
    forall j, k, id | j in byType && k in byType[j] && id in byType[j][k]
      ensures id in byID
    {
      assert Cell(Row(byType, j), k) == Ids(Select(OfType(j, k), machines));
    }
  }

  lemma SelectedKnown(machines: seq<Machine>, byID: map<MachineId, nat>, q: Query)
    requires Numbered(machines, byID)
    ensures forall id | id in Ids(Select(q, machines)) :: id in byID
    ensures Resolve(machines, byID, Ids(Select(q, machines))) == Select(q, machines)
  {
    forall m | m in Select(q, machines)
      ensures m in machines
    {
      SelectIn(q, machines, m);
    }
    ResolveIds(machines, byID, Select(q, machines));
  }

  lemma NoneListed(q: Query, o: Order, machines: seq<Machine>)
    requires Ids(Select(q, machines)) == []
    ensures Sort(o, Select(q, machines)) == []
  {
    assert |Ids(Select(q, machines))| == |Select(q, machines)|;
  }

  lemma BucketsAgree(machines: seq<Machine>, byID: map<MachineId, nat>,
                     byCluster: map<string, map<State, seq<MachineId>>>,
                     byType: map<State, map<string, seq<MachineId>>>, byState: map<State, seq<MachineId>>,
                     types: map<State, map<string, seq<Machine>>>, clusters: map<string, map<State, seq<Machine>>>)
    requires Numbered(machines, byID) && Indexed(machines, byState, byCluster, byType)
    requires Known(byID, byCluster) && Known(byID, byType)
    requires types.Keys == byType.Keys && clusters.Keys == byCluster.Keys
    requires forall j | j in byType ::
               types[j].Keys == byType[j].Keys &&
               forall k | k in byType[j] :: types[j][k] == Sort(ByPrice, Resolve(machines, byID, byType[j][k]))
    requires forall j | j in byCluster ::
               clusters[j].Keys == byCluster[j].Keys &&
               forall k | k in byCluster[j] ::
                 clusters[j][k] == Sort(KeepPriority, Resolve(machines, byID, byCluster[j][k]))
    ensures forall st, ty :: Cell(Row(types, st), ty) == TypeBucket(machines, st, ty)
    ensures forall cl, st :: Cell(Row(clusters, cl), st) == ClusterBucket(machines, cl, st)
  {
    forall st, ty
      ensures Cell(Row(types, st), ty) == TypeBucket(machines, st, ty)
    {
      var q := OfType(st, ty);
      assert Cell(Row(byType, st), ty) == Ids(Select(q, machines));
      SelectedKnown(machines, byID, q);
      if st !in byType || ty !in byType[st] {
        NoneListed(q, ByPrice, machines);
      }
    }
    forall cl, st
      ensures Cell(Row(clusters, cl), st) == ClusterBucket(machines, cl, st)
    {
      var q := Bound(cl, st);
      assert Cell(Row(byCluster, cl), st) == Ids(Select(q, machines));
      SelectedKnown(machines, byID, q);
      if cl !in byCluster || st !in byCluster[cl] {
        NoneListed(q, KeepPriority, machines);
      }
    }
  }

  // ---- Least assigned priorities ------------------------------------------

  predicate IsLeast(ms: seq<Machine>, x: int) {
    && x <= MAX_INT32 && (forall m | m in ms :: x <= m.assignedPriority)
    && (x == MAX_INT32 || exists m :: m in ms && m.assignedPriority == x)
  }

  lemma LeastIs(ms: seq<Machine>)
    ensures IsLeast(ms, LeastPriority(ms))
  {
    if ms != [] {
      LeastIs(ms[1..]);
      var l := LeastPriority(ms);
      assert ms == [ms[0]] + ms[1..];
      assert l != MAX_INT32 ==> exists m :: m in ms && m.assignedPriority == l;
    }
  }

  lemma LeastUnique(ms: seq<Machine>, x: int)
    requires IsLeast(ms, x)
    ensures x == LeastPriority(ms)
  {
    LeastIs(ms);
  }

  lemma LeastSame(a: seq<Machine>, b: seq<Machine>)
    requires forall m :: m in a <==> m in b
    ensures LeastPriority(a) == LeastPriority(b)
  {
    LeastIs(b);
    LeastUnique(a, LeastPriority(b));
  }

  method Least(ms: seq<Machine>) returns (least: int)
    ensures least == LeastPriority(ms)
  {
    least := MAX_INT32;
    for i := 0 to |ms|
      invariant IsLeast(ms[..i], least)
    {
      assert ms[..i + 1] == ms[..i] + [ms[i]];
      if ms[i].assignedPriority < least {
        least := ms[i].assignedPriority;
      }
    }
    assert ms[..|ms|] == ms;
    LeastUnique(ms, least);
  }

  method RowMinima(row: map<string, seq<Machine>>) returns (typed: map<string, int>, least: int)
    ensures typed.Keys == row.Keys
    ensures forall ty | ty in row :: typed[ty] == LeastPriority(row[ty]) && least <= typed[ty]
    ensures least <= MAX_INT32 && (least == MAX_INT32 || exists ty :: ty in row && typed[ty] == least)
  {
    typed, least := map[], MAX_INT32;
    var todo := row.Keys;
    while todo != {}
      invariant todo <= row.Keys && typed.Keys == row.Keys - todo
      invariant forall ty | ty in typed :: typed[ty] == LeastPriority(row[ty]) && least <= typed[ty]
      invariant least <= MAX_INT32 && (least == MAX_INT32 || exists ty :: ty in typed && typed[ty] == least)
      decreases todo
    {
      var ty :| ty in todo;
      var x := Least(row[ty]);
      typed := typed[ty := x];
      todo := todo - {ty};
      if x < least {
        least := x;
        assert ty in typed && typed[ty] == least;
      }
    }
  }

  /** Folds in the machines of the state that declare no instance type. */
  method UntypedMinimum(machines: seq<Machine>, byID: map<MachineId, nat>, ids: seq<MachineId>, from: int)
    returns (least: int)
    requires Numbered(machines, byID) && forall id | id in ids :: id in byID
    ensures least <= from
    ensures least == from ||
            exists m :: m in Resolve(machines, byID, ids) && m.instanceType == "" && m.assignedPriority == least
    ensures forall m | m in Resolve(machines, byID, ids) && m.instanceType == "" :: least <= m.assignedPriority
  {
    least := from;
    ghost var all := Resolve(machines, byID, ids);
    for i := 0 to |ids|
      invariant least <= from
      invariant least == from || exists m :: m in all && m.instanceType == "" && m.assignedPriority == least
      invariant forall j | 0 <= j < i && all[j].instanceType == "" :: least <= all[j].assignedPriority
    {
      var m := machines[byID[ids[i]]];
      assert m == all[i] && m in all;
      if m.instanceType == "" && m.assignedPriority < least {
        least := m.assignedPriority;
      }
    }
  }

  lemma TypedCell(machines: seq<Machine>, st: State, row: map<string, seq<Machine>>, m: Machine)
    requires forall ty :: Cell(row, ty) == TypeBucket(machines, st, ty)
    requires m in Select(InState(st), machines) && m.instanceType != ""
    ensures m.instanceType in row && m in row[m.instanceType]
  {
    var ty := m.instanceType;
    SelectIn(InState(st), machines, m);
    SelectIn(OfType(st, ty), machines, m);
    SortIn(ByPrice, Select(OfType(st, ty), machines), m);
    assert m in Cell(row, ty);
  }

  lemma CellInState(machines: seq<Machine>, st: State, row: map<string, seq<Machine>>, ty: string, m: Machine)
    requires forall ty :: Cell(row, ty) == TypeBucket(machines, st, ty)
    requires ty in row && m in row[ty]
    ensures m in Select(InState(st), machines)
  {
    assert m in Cell(row, ty);
    SortIn(ByPrice, Select(OfType(st, ty), machines), m);
    SelectIn(OfType(st, ty), machines, m);
    SelectIn(InState(st), machines, m);
  }

  lemma StateMinimum(machines: seq<Machine>, st: State, row: map<string, seq<Machine>>, typed: map<string, int>,
                     low: int, least: int)
    requires forall ty :: Cell(row, ty) == TypeBucket(machines, st, ty)
    requires typed.Keys == row.Keys && forall ty | ty in row :: typed[ty] == LeastPriority(row[ty]) && low <= typed[ty]
    requires low <= MAX_INT32 && (low == MAX_INT32 || exists ty :: ty in row && typed[ty] == low)
    requires least <= low
    requires least == low || exists m :: m in Select(InState(st), machines) && m.assignedPriority == least
    requires forall m | m in Select(InState(st), machines) && m.instanceType == "" :: least <= m.assignedPriority
    ensures least == LeastPriority(Select(InState(st), machines))
  {
    var all := Select(InState(st), machines);
    forall m | m in all
      ensures least <= m.assignedPriority
    {
      if m.instanceType != "" {
        TypedCell(machines, st, row, m);
        LeastIs(row[m.instanceType]);
      }
    }
    if least == low && low != MAX_INT32 {
      var ty :| ty in row && typed[ty] == low;
      LeastIs(row[ty]);
      var m :| m in row[ty] && m.assignedPriority == low;
      CellInState(machines, st, row, ty, m);
    }
    LeastUnique(all, least);
  }

  method OneState(machines: seq<Machine>, byID: map<MachineId, nat>, ids: seq<MachineId>, st: State,
                  row: map<string, seq<Machine>>)
    returns (typed: map<string, int>, least: int)
    requires Numbered(machines, byID) && ids == Ids(Select(InState(st), machines))
    requires forall ty :: Cell(row, ty) == TypeBucket(machines, st, ty)
    ensures RowOK(row, typed) && least == LeastPriority(Select(InState(st), machines))
  {
    var low: int;
    typed, low := RowMinima(row);
    SelectedKnown(machines, byID, InState(st));
    least := UntypedMinimum(machines, byID, ids, low);
    StateMinimum(machines, st, row, typed, low, least);
  }

  ghost predicate TypesOK(machines: seq<Machine>, types: map<State, map<string, seq<Machine>>>) {
    forall st, ty :: Cell(Row(types, st), ty) == TypeBucket(machines, st, ty)
  }

  method Minima(machines: seq<Machine>, byID: map<MachineId, nat>, byState: map<State, seq<MachineId>>,
                types: map<State, map<string, seq<Machine>>>)
    returns (minByType: map<State, map<string, int>>, minByState: map<State, int>)
    requires Numbered(machines, byID) && TypesOK(machines, types)
    requires forall st :: Cell(byState, st) == Ids(Select(InState(st), machines))
    ensures minByType.Keys == minByState.Keys == types.Keys
    ensures forall st | st in types ::
              RowOK(types[st], minByType[st]) && minByState[st] == LeastPriority(Select(InState(st), machines))
  {
    minByType, minByState := map[], map[];
    var todo := types.Keys;
    while todo != {}
      invariant todo <= types.Keys && minByType.Keys == minByState.Keys == types.Keys - todo
      invariant forall st | st in minByType ::
                  RowOK(types[st], minByType[st]) && minByState[st] == LeastPriority(Select(InState(st), machines))
      decreases todo
    {
      var st :| st in todo;
      todo := todo - {st};
      RowCells(machines, st, types);
      var typed, least := OneState(machines, byID, Cell(byState, st), st, types[st]);
      minByType, minByState := minByType[st := typed], minByState[st := least];
    }
  }

  ghost predicate RowOK(row: map<string, seq<Machine>>, typed: map<string, int>) {
    typed.Keys == row.Keys && forall ty | ty in row :: typed[ty] == LeastPriority(row[ty])
  }

  lemma RowCells(machines: seq<Machine>, st: State, types: map<State, map<string, seq<Machine>>>)
    requires TypesOK(machines, types) && st in types
    ensures forall ty :: Cell(types[st], ty) == TypeBucket(machines, st, ty)
  {
    forall ty
      ensures Cell(types[st], ty) == TypeBucket(machines, st, ty)
    {
      assert Cell(Row(types, st), ty) == TypeBucket(machines, st, ty);
    }
  }

  lemma MinimaAgree(machines: seq<Machine>, types: map<State, map<string, seq<Machine>>>,
                    minByType: map<State, map<string, int>>)
    requires TypesOK(machines, types)
    requires minByType.Keys == types.Keys && forall st | st in types :: RowOK(types[st], minByType[st])
    ensures forall st, ty :: LeastOf(Row(minByType, st), ty) == LeastPriority(Select(OfType(st, ty), machines))
  {
    forall st, ty
      ensures LeastOf(Row(minByType, st), ty) == LeastPriority(Select(OfType(st, ty), machines))
    {
      var plain := Select(OfType(st, ty), machines);
      assert Cell(Row(types, st), ty) == Sort(ByPrice, plain);
      forall m {
        SortIn(ByPrice, plain, m);
      }
      LeastSame(Sort(ByPrice, plain), plain);
    }
  }

  /** Every bound machine of a well-formed fleet is in its cluster's bucket, with a host to drain;
      one that is not created yet names neither; no risk or price is negative. */
  lemma RecordsSound(ms: seq<Machine>, m: Machine)
    requires m in ms && WellFormed(m)
    ensures m.state == Configured || m.state == Draining ==> m in ClusterBucket(ms, m.cluster, m.state) && m.hosted
    ensures m.state == Speculative || m.state == Creating ==> !m.hosted && m.cluster == ""
    ensures m.state == Idle || m.state == Configuring || m.state == Deleting ==> m.hosted
    ensures m.state == Failed ==> m.lastError != ""
    ensures m.state != Unspecified && m.price >= 0.0 && 0.0 <= m.interruptionProbability <= 1.0
  {
    ClusterBucketIn(ms, m.cluster, m.state, m);
  }
}
