/** Machines, Needs and how one matches the other. */
module Fleet {
  import opened Resources

  datatype Option<T> = None | Some(value: T)

  type MachineId = nat

  datatype State =
    Unspecified | Speculative | Creating | Idle | Configuring | Configured | Draining | Deleting | Failed

  datatype Operator = OpUnspecified | In | NotIn | Exists | DoesNotExist | Same

  datatype Requirement = Requirement(key: string, op: Operator, values: seq<string>)

  datatype WhenUnsatisfiable = WhenUnspecified | DoNotSchedule | ScheduleAnyway

  datatype TopologySpread = TopologySpread(key: string, maxSkew: int, when: WhenUnsatisfiable)

  /** The aggregation identity of a Need. Two Profiles are equal exactly when
      their fingerprints are, so the Profile itself stands for its fingerprint. */
  datatype Profile = Profile(requirements: seq<Requirement>, spread: seq<TopologySpread>,
                             priority: int, interruption: nat, reclamation: nat)

  datatype CapacityType = CapacityUnspecified | BareMetal | Reserved | OnDemand | Spot

  /** A penalty in dollars; that of a pinned workload has no bound. */
  datatype Penalty = Amount(dollars: real) | Unbounded {
    predicate Less(o: Penalty) {
      Amount? && (o.Unbounded? || dollars < o.dollars)
    }
  }

  /** `hosted`: the record names a provider host. */
  datatype Machine = Machine(
    id: MachineId, state: State, hosted: bool, cluster: string, lastError: string,
    capacity: CapacityType, instanceType: string, zone: string, labels: map<string, string>,
    price: real, interruptionProbability: real,
    allocatable: ResVec, resources: ResVec,
    assignedPriority: int, assignedInterruption: Penalty, assignedReclamation: Penalty,
    assignedProfile: Option<Profile>, assignedGroup: string)

  datatype Need = Need(cluster: string, profile: Profile, aggregate: ResVec, minUnit: ResVec,
                       arrival: int, group: string, parked: bool)

  /** What stays of a Need from cycle to cycle. */
  datatype ClassKey = ClassKey(cluster: string, profile: Profile, group: string)

  function ClassOf(n: Need): ClassKey {
    ClassKey(n.cluster, n.profile, n.group)
  }

  /** One class: the same cluster, Profile and group. */
  predicate Alike(a: Need, b: Need) {
    a.cluster == b.cluster && a.profile == b.profile && a.group == b.group
  }

  /** The earlier of two arrivals, where zero says unknown. */
  function Earlier(a: int, b: int): int {
    if b != 0 && (a == 0 || b < a) then b else a
  }

  const INSTANCE_TYPE_KEY := "node.kubernetes.io/instance-type"
  const ZONE_KEY := "topology.kubernetes.io/zone"

  function Alloc(m: Machine): ResVec {
    if |m.allocatable| > 0 then m.allocatable else m.resources
  }

  function Lookup(key: string, m: Machine): Option<string> {
    if key == INSTANCE_TYPE_KEY && m.instanceType != "" then Some(m.instanceType)
    else if key == ZONE_KEY && m.zone != "" then Some(m.zone)
    else if key in m.labels then Some(m.labels[key])
    else None
  }

  predicate MatchRequirement(r: Requirement, m: Machine) {
    var v := Lookup(r.key, m);
    match r.op
    case In => v.Some? && v.value in r.values
    case NotIn => v.Some? ==> v.value !in r.values
    case Exists => v.Some?
    case DoesNotExist => v.None?
    case Same => v.Some? && (r.values == [] || v.value in r.values)
    case OpUnspecified => false
  }

  /** On one key, In and NotIn exclude each other and leave nothing out, and so do Exists
      and DoesNotExist; Same asks for a value, and for a listed one if any is listed. */
  lemma OperatorsOppose(key: string, values: seq<string>, m: Machine)
    ensures MatchRequirement(Requirement(key, In, values), m) != MatchRequirement(Requirement(key, NotIn, values), m)
    ensures MatchRequirement(Requirement(key, Exists, values), m) !=
            MatchRequirement(Requirement(key, DoesNotExist, values), m)
    ensures MatchRequirement(Requirement(key, Same, values), m) ==
            MatchRequirement(Requirement(key, if values == [] then Exists else In, values), m)
    ensures MatchRequirement(Requirement(key, In, values), m) ==> MatchRequirement(Requirement(key, Exists, []), m)
  {
  }

  predicate Matches(p: Profile, m: Machine) {
    forall r | r in p.requirements :: MatchRequirement(r, m)
  }

  /** A machine of the right shape that can host one atomic unit of the Need. */
  predicate Fits(n: Need, m: Machine) {
    Matches(n.profile, m) && Covers(Alloc(m), n.minUnit)
  }

  function FirstSame(rs: seq<Requirement>): Option<string> {
    if rs == [] then None
    else if rs[0].op == Same then Some(rs[0].key)
    else FirstSame(rs[1..])
  }

  function SameKey(p: Profile): Option<string> {
    FirstSame(p.requirements)
  }

  function FirstStrict(ss: seq<TopologySpread>): Option<TopologySpread> {
    if ss == [] then None
    else if ss[0].when == DoNotSchedule then Some(ss[0])
    else FirstStrict(ss[1..])
  }

  function StrictSpread(p: Profile): Option<TopologySpread> {
    FirstStrict(p.spread)
  }

  predicate Plain(n: Need) {
    SameKey(n.profile).None? && StrictSpread(n.profile).None?
  }

  /** The instance types a Profile pins to, or None when it pins to no finite set:
      only the first requirement on the instance-type key is looked at. */
  function PinnedIn(rs: seq<Requirement>): Option<seq<string>> {
    if rs == [] then None
    else if rs[0].key != INSTANCE_TYPE_KEY then PinnedIn(rs[1..])
    else if rs[0].op == In && rs[0].values != [] then Some(rs[0].values)
    else None
  }

  function PinnedTypes(p: Profile): Option<seq<string>> {
    PinnedIn(p.requirements)
  }

  datatype Precedence = Precedence(priority: int, interruption: nat, reclamation: nat) {
    /** Lexicographic; the greater one may displace the lesser. */
    predicate Less(o: Precedence) {
      if priority != o.priority then priority < o.priority
      else if interruption != o.interruption then interruption < o.interruption
      else reclamation < o.reclamation
    }
  }

  function PrecedenceOf(p: Profile): Precedence {
    Precedence(p.priority, p.interruption, p.reclamation)
  }

  lemma PrecedenceOrder(a: Precedence, b: Precedence, c: Precedence)
    ensures !a.Less(a)
    ensures a.Less(b) && b.Less(c) ==> a.Less(c)
    ensures a.Less(b) || a == b || b.Less(a)
  {
  }

  lemma PinnedRequirement(rs: seq<Requirement>)
    requires PinnedIn(rs).Some?
    ensures Requirement(INSTANCE_TYPE_KEY, In, PinnedIn(rs).value) in rs
  {
    if rs[0].key != INSTANCE_TYPE_KEY {
      PinnedRequirement(rs[1..]);
    }
  }

  lemma SameRequirement(rs: seq<Requirement>)
    ensures FirstSame(rs).Some? ==> exists r :: r in rs && r.op == Same && r.key == FirstSame(rs).value
    ensures FirstSame(rs).None? ==> forall r | r in rs :: r.op != Same
  {
    if rs != [] && rs[0].op != Same {
      SameRequirement(rs[1..]);
    }
  }

  /** What a machine declares about itself comes first: its labels settle neither its type
      nor its zone once those are declared, and its raw resources do not count once an
      allocatable is. Every other key is read from the labels alone. */
  lemma DeclaredFirst(m: Machine, key: string, labels: map<string, string>, resources: ResVec)
    ensures m.instanceType != "" ==> Lookup(INSTANCE_TYPE_KEY, m.(labels := labels)) == Some(m.instanceType)
    ensures m.zone != "" ==> Lookup(ZONE_KEY, m.(labels := labels)) == Some(m.zone)
    ensures (key == INSTANCE_TYPE_KEY && m.instanceType != "") || (key == ZONE_KEY && m.zone != "") ||
            Lookup(key, m.(labels := labels)) == if key in labels then Some(labels[key]) else None
    ensures m.allocatable != map[] ==> Alloc(m.(resources := resources)) == m.allocatable
    ensures Alloc(m.(allocatable := map[], resources := resources)) == resources
  {
    if m.allocatable != map[] {
      assert |m.allocatable| != 0;
    }
  }

  /** A strict spread is found exactly when some constraint forbids scheduling without it,
      and then it is the first such one. */
  lemma {:induction false} StrictFirst(ss: seq<TopologySpread>)
    ensures FirstStrict(ss).None? <==> forall t | t in ss :: t.when != DoNotSchedule
    ensures FirstStrict(ss).Some? ==>
              exists k :: 0 <= k < |ss| && FirstStrict(ss) == Some(ss[k]) && ss[k].when == DoNotSchedule &&
                          forall j | 0 <= j < k :: ss[j].when != DoNotSchedule
    decreases |ss|
  {
    if ss != [] && ss[0].when != DoNotSchedule {
      StrictFirst(ss[1..]);
      if FirstStrict(ss).Some? {
        var k :| 0 <= k < |ss[1..]| && FirstStrict(ss[1..]) == Some(ss[1..][k]) && ss[1..][k].when == DoNotSchedule &&
                 forall j | 0 <= j < k :: ss[1..][j].when != DoNotSchedule;
        assert ss[k + 1] == ss[1..][k];
        assert forall j | 0 < j < k + 1 :: ss[j] == ss[1..][j - 1];
      }
    }
  }

  /** The requirement at `k` is the first on the instance-type key. */
  predicate FirstOnType(rs: seq<Requirement>, k: nat) {
    k < |rs| && rs[k].key == INSTANCE_TYPE_KEY && forall j | 0 <= j < k :: rs[j].key != INSTANCE_TYPE_KEY
  }

  /** A Profile is pinned exactly when its first requirement on the instance-type key lists
      values that are allowed, whatever later ones say. */
  lemma {:induction false} PinnedExactly(rs: seq<Requirement>, values: seq<string>)
    ensures PinnedIn(rs) == Some(values) <==>
            values != [] && exists k: nat :: FirstOnType(rs, k) && rs[k].op == In && rs[k].values == values
    decreases |rs|
  {
    if rs != [] && rs[0].key == INSTANCE_TYPE_KEY {
      assert FirstOnType(rs, 0);
      assert forall k: nat | FirstOnType(rs, k) :: k == 0;
    } else if rs != [] {
      PinnedExactly(rs[1..], values);
      forall k: nat
        ensures FirstOnType(rs[1..], k) <==> FirstOnType(rs, k + 1)
      {
        assert k < |rs| - 1 ==> rs[1..][k] == rs[k + 1];
        assert forall j | 0 <= j < k && j < |rs| - 1 :: rs[1..][j] == rs[j + 1];
        assert forall j | 0 < j < k + 1 && j < |rs| :: rs[j] == rs[1..][j - 1];
      }
      if k: nat :| FirstOnType(rs, k) && rs[k].op == In && rs[k].values == values {
        assert k > 0 && FirstOnType(rs[1..], k - 1);
      }
    }
  }

  /** The earlier arrival is one of the two, no later than either where known, and unknown
      only if both are. */
  lemma EarlierIs(a: int, b: int)
    ensures Earlier(a, b) == a || Earlier(a, b) == b
    ensures Earlier(a, b) == 0 <==> a == 0 && b == 0
    ensures (a != 0 ==> Earlier(a, b) <= a) && (b != 0 ==> Earlier(a, b) <= b)
  {
  }

  /** The earliest arrival known of any of the Needs, or zero if none is. */
  predicate EarliestKnown(arrival: int, ns: seq<Need>) {
    && (arrival == 0 <==> forall n | n in ns :: n.arrival == 0)
    && (forall n | n in ns && n.arrival != 0 :: arrival <= n.arrival)
    && (arrival != 0 ==> exists n :: n in ns && n.arrival == arrival)
  }

  lemma EarliestNext(arrival: int, ns: seq<Need>, n: Need)
    requires EarliestKnown(arrival, ns)
    ensures EarliestKnown(Earlier(arrival, n.arrival), ns + [n])
  {
    EarlierIs(arrival, n.arrival);
    assert n in ns + [n] && forall x | x in ns :: x in ns + [n];
  }
}
