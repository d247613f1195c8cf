/** Phase 2: preempting lower-priority machines for the Needs phase 1 left short. */
module Preempt {
  import opened Resources
  import opened Fleet
  import opened Scoring
  import opened Views
  import opened Inventory
  import opened Pools
  import opened Sequences

  /** A Need still short. The last three fields report a preemption attempt. */
  datatype Shortfall = Shortfall(need: Need, deficit: ResVec, domain: string, acquired: nat, satisfiable: bool,
                                 preempted: bool, victims: nat, freed: ResVec)

  datatype Preemption = Preemption(id: MachineId, cluster: string, grace: nat, preemptor: int)

  datatype Options = Options(weights: Weights, drainSeconds: real)

  function VictimOrder(p: Profile, o: Options): Order {
    ByScore(p.priority, o.drainSeconds, o.weights)
  }

  /** The shortcut's verdict: by the least assigned priorities no victim can exist. */
  predicate NoVictim(ms: seq<Machine>, p: Profile) {
    match PinnedTypes(p)
    case None =>
      var least := if HasTyped(ms, Configured) then LeastPriority(Select(InState(Configured), ms)) else MAX_INT32;
      least >= p.priority
    case Some(types) => forall ty | ty in types :: LeastPriority(Select(OfType(Configured, ty), ms)) >= p.priority
  }

  /** Every displaceable machine of the Profile's pool, best victim first. */
  function AllVictims(ms: seq<Machine>, p: Profile, o: Options): seq<Machine> {
    Sort(VictimOrder(p, o), Select(Victim(p), Source(ms, Configured, p)))
  }

  /** What phase 2 walks for a Profile. */
  function Ranked(ms: seq<Machine>, p: Profile, o: Options): seq<Machine> {
    if NoVictim(ms, p) then [] else AllVictims(ms, p, o)
  }

  /** A machine that hosts a unit of the Need, inside its domain when it is a gang. */
  predicate Eligible(n: Need, domain: string, m: Machine) {
    Covers(Alloc(m), n.minUnit) &&
    (SameKey(n.profile).Some? ==> Lookup(SameKey(n.profile).value, m) == Some(domain))
  }

  /** Walks the ranked victims, taking each eligible free one while a deficit remains. */
  function Drain(ranked: seq<Machine>, n: Need, domain: string, taken: set<MachineId>, rem: ResVec)
    : (r: (seq<Machine>, ResVec))
  {
    if ranked == [] || IsZero(rem) then ([], rem)
    else
      var m := ranked[0];
      if m.id in taken || !Eligible(n, domain, m) then Drain(ranked[1..], n, domain, taken, rem)
      else
        var (picks, rem') := Drain(ranked[1..], n, domain, taken, Sub(rem, Alloc(m)));
        ([m] + picks, rem')
  }

  /** Parked Needs, and gangs for which no domain was chosen, are passed over. */
  predicate Skipped(u: Shortfall) {
    u.need.parked || (SameKey(u.need.profile).Some? && u.domain == "")
  }

  function Attempt(ms: seq<Machine>, u: Shortfall, o: Options, taken: set<MachineId>): (seq<Machine>, ResVec) {
    if Skipped(u) then ([], u.deficit)
    else Drain(Ranked(ms, u.need.profile, o), u.need, u.domain, taken, u.deficit)
  }

  function PreemptionOf(p: Profile, m: Machine): Preemption {
    Preemption(m.id, m.cluster, DrainGrace(p.priority, m.assignedPriority), p.priority)
  }

  function PreemptionsOf(p: Profile, ms: seq<Machine>): seq<Preemption> {
    seq(|ms|, i requires 0 <= i < |ms| => PreemptionOf(p, ms[i]))
  }

  /** How a Need comes out of its attempt, or None when it no longer is short. */
  function Leftover(u: Shortfall, picks: seq<Machine>, rem: ResVec): Option<Shortfall> {
    if Skipped(u) then Some(u)
    else if IsZero(rem) then None
    else Some(Shortfall(u.need, rem, "", 0, false, picks != [], |picks|, SumAlloc(picks)))
  }

  function OptionSeq<T>(o: Option<T>): seq<T> {
    if o.Some? then [o.value] else []
  }

  /** The whole phase over Needs already in priority order. */
  function Run(ms: seq<Machine>, us: seq<Shortfall>, o: Options, taken: set<MachineId>)
    : (seq<Preemption>, seq<Shortfall>)
  {
    if us == [] then ([], [])
    else
      var (picks, rem) := Attempt(ms, us[0], o, taken);
      var (actions, left) := Run(ms, us[1..], o, taken + IdSet(picks));
      (PreemptionsOf(us[0].need.profile, picks) + actions, OptionSeq(Leftover(us[0], picks, rem)) + left)
  }

  // ---- The stable order of the Needs --------------------------------------

  function Enqueue(u: Shortfall, us: seq<Shortfall>): seq<Shortfall> {
    if us == [] || us[0].need.profile.priority <= u.need.profile.priority then [u] + us
    else [us[0]] + Enqueue(u, us[1..])
  }

  /** Priority descending, equals in the order given. */
  function ByPriority(us: seq<Shortfall>): seq<Shortfall> {
    if us == [] then [] else Enqueue(us[0], ByPriority(us[1..]))
  }

  function AtPriority(us: seq<Shortfall>, priority: int): seq<Shortfall> {
    if us == [] then []
    else (if us[0].need.profile.priority == priority then [us[0]] else []) + AtPriority(us[1..], priority)
  }

  predicate Descending(us: seq<Shortfall>) {
    forall i, j | 0 <= i < j < |us| :: us[i].need.profile.priority >= us[j].need.profile.priority
  }

  lemma EnqueueIn(u: Shortfall, us: seq<Shortfall>, x: Shortfall)
    ensures x in Enqueue(u, us) <==> x == u || x in us
  {
    if us != [] && us[0].need.profile.priority > u.need.profile.priority {
      EnqueueIn(u, us[1..], x);
    }
  }

  lemma EnqueueDescends(u: Shortfall, us: seq<Shortfall>)
    requires Descending(us)
    ensures Descending(Enqueue(u, us))
  {
    if us != [] && us[0].need.profile.priority > u.need.profile.priority {
      var rest := Enqueue(u, us[1..]);
      EnqueueDescends(u, us[1..]);
      forall k | 0 <= k < |rest|
        ensures rest[k].need.profile.priority <= us[0].need.profile.priority
      {
        EnqueueIn(u, us[1..], rest[k]);
      }
    }
  }

  lemma AtPriorityHead(h: Shortfall, t: seq<Shortfall>, priority: int)
    ensures AtPriority([h] + t, priority) == AtPriority([h], priority) + AtPriority(t, priority)
  {
    assert ([h] + t)[1..] == t;
  }

  lemma EnqueueHead(u: Shortfall, h: Shortfall, t: seq<Shortfall>)
    ensures Enqueue(u, [h] + t) ==
            if h.need.profile.priority <= u.need.profile.priority then [u] + ([h] + t) else [h] + Enqueue(u, t)
  {
    assert ([h] + t)[1..] == t;
  }

  lemma {:induction false} EnqueueStable(u: Shortfall, us: seq<Shortfall>, priority: int)
    requires Descending(us)
    ensures AtPriority(Enqueue(u, us), priority) == AtPriority([u], priority) + AtPriority(us, priority)
    decreases |us|
  {
    if us == [] || us[0].need.profile.priority <= u.need.profile.priority {
      AtPriorityHead(u, us, priority);
    } else {
      var h, t := us[0], us[1..];
      assert us == [h] + t;
      EnqueueStable(u, t, priority);
      EnqueueHead(u, h, t);
      AtPriorityHead(h, t, priority);
      AtPriorityHead(h, Enqueue(u, t), priority);
      Apart(h, u, priority);
      Regroup(AtPriority([h], priority), AtPriority([u], priority), AtPriority(t, priority));
      Regroup(AtPriority([u], priority), AtPriority([h], priority), AtPriority(t, priority));
    }
  }

  lemma Apart(h: Shortfall, u: Shortfall, priority: int)
    requires h.need.profile.priority != u.need.profile.priority
    ensures AtPriority([h], priority) + AtPriority([u], priority) ==
            AtPriority([u], priority) + AtPriority([h], priority)
  {
  }

  /** The order is by priority, and the Needs of each priority keep theirs. */
  lemma {:induction false} ByPriorityStable(us: seq<Shortfall>, priority: int)
    ensures Descending(ByPriority(us))
    ensures AtPriority(ByPriority(us), priority) == AtPriority(us, priority)
    decreases |us|
  {
    if us != [] {
      ByPriorityStable(us[1..], priority);
      EnqueueDescends(us[0], ByPriority(us[1..]));
      EnqueueStable(us[0], ByPriority(us[1..]), priority);
      AtPriorityHead(us[0], us[1..], priority);
      assert us == [us[0]] + us[1..];
    }
  }

  // ---- The phase as the code runs it --------------------------------------

  method HasNoVictim(snap: Snapshot, p: Profile) returns (none: bool)
    requires snap.Agrees()
    ensures none == NoVictim(snap.machines, p)
  {
    match PinnedTypes(p)
    case None => return snap.MinAssignedPriority(Configured) >= p.priority;
    case Some(types) =>
      for i := 0 to |types|
        invariant forall ty | ty in types[..i] ::
                    LeastPriority(Select(OfType(Configured, ty), snap.machines)) >= p.priority
      {
        if snap.MinAssignedPriorityByInstanceType(Configured, types[i]) < p.priority {
          assert types[i] in types;
          return false;
        }
        assert types[..i + 1] == types[..i] + [types[i]];
      }
      assert types[..|types|] == types;
      return true;
  }

  method KeepVictims(pool: seq<Machine>, p: Profile) returns (kept: seq<Machine>)
    ensures kept == Select(Victim(p), pool)
  {
    kept := [];
    for i := 0 to |pool|
      invariant kept == Select(Victim(p), pool[..i])
    {
      VictimNext(p, pool, i);
      if pool[i].assignedPriority < p.priority && Matches(p, pool[i]) {
        kept := kept + [pool[i]];
      }
    }
    assert pool[..|pool|] == pool;
  }

  lemma VictimNext(p: Profile, pool: seq<Machine>, i: nat)
    requires i < |pool|
    ensures Select(Victim(p), pool[..i + 1]) ==
            if pool[i].assignedPriority < p.priority && Matches(p, pool[i])
            then Select(Victim(p), pool[..i]) + [pool[i]]
            else Select(Victim(p), pool[..i])
  {
    assert pool[..i + 1] == pool[..i] + [pool[i]];
    SelectConcat(Victim(p), pool[..i], [pool[i]]);
    SelectHead(Victim(p), pool[i], []);
    assert [pool[i]] + [] == [pool[i]];
  }

  /** Scores and sorts the victims of one Profile. */
  method RankVictims(snap: Snapshot, p: Profile, o: Options) returns (ranked: seq<Machine>)
    requires snap.Agrees()
    ensures ranked == Ranked(snap.machines, p, o)
  {
    var none := HasNoVictim(snap, p);
    var pool: seq<Machine> := [];
    if !none {
      pool := SourceOf(snap, Configured, p);
    }
    var kept := KeepVictims(pool, p);
    ranked := Sort(VictimOrder(p, o), kept);
  }

  lemma DrainNext(ranked: seq<Machine>, i: nat, n: Need, domain: string, taken: set<MachineId>, rem: ResVec)
    requires i < |ranked| && !IsZero(rem)
    ensures var m, t := ranked[i], ranked[i + 1..];
            var r := Drain(ranked[i..], n, domain, taken, rem);
            if m.id in taken || !Eligible(n, domain, m) then r == Drain(t, n, domain, taken, rem)
            else r.0 == [m] + Drain(t, n, domain, taken, Sub(rem, Alloc(m))).0
                 && r.1 == Drain(t, n, domain, taken, Sub(rem, Alloc(m))).1
  {
    assert ranked[i..][1..] == ranked[i + 1..];
  }

  method DrainVictims(ranked: seq<Machine>, n: Need, domain: string, taken: set<MachineId>, deficit: ResVec)
    returns (picks: seq<Machine>, rem: ResVec)
    ensures picks == Drain(ranked, n, domain, taken, deficit).0
    ensures rem == Drain(ranked, n, domain, taken, deficit).1
  {
    picks, rem := [], deficit;
    var i := 0;
    while i < |ranked| && !IsZero(rem)
      invariant i <= |ranked|
      invariant Drain(ranked, n, domain, taken, deficit).0 == picks + Drain(ranked[i..], n, domain, taken, rem).0
      invariant Drain(ranked, n, domain, taken, deficit).1 == Drain(ranked[i..], n, domain, taken, rem).1
    {
      var m := ranked[i];
      DrainNext(ranked, i, n, domain, taken, rem);
      if m.id !in taken && Eligible(n, domain, m) {
        Regroup(picks, [m], Drain(ranked[i + 1..], n, domain, taken, Sub(rem, Alloc(m))).0);
        picks := picks + [m];
        rem := Sub(rem, Alloc(m));
      }
      i := i + 1;
    }
  }

  method SumFreed(picks: seq<Machine>) returns (freed: ResVec)
    ensures freed == SumAlloc(picks)
  {
    freed := map[];
    for i := 0 to |picks|
      invariant freed == SumAlloc(picks[..i])
    {
      assert picks[..i + 1] == picks[..i] + [picks[i]];
      SumLast(picks[..i], picks[i]);
      freed := Add(freed, Alloc(picks[i]));
    }
    assert picks[..|picks|] == picks;
  }

  method Emit(p: Profile, picks: seq<Machine>, claimed: set<MachineId>)
    returns (actions: seq<Preemption>, taken: set<MachineId>)
    ensures actions == PreemptionsOf(p, picks) && taken == claimed + IdSet(picks)
  {
    actions, taken := [], claimed;
    for j := 0 to |picks|
      invariant actions == PreemptionsOf(p, picks[..j]) && taken == claimed + IdSet(picks[..j])
    {
      assert picks[..j + 1] == picks[..j] + [picks[j]];
      taken := taken + {picks[j].id};
      actions := actions + [PreemptionOf(p, picks[j])];
    }
    assert picks[..|picks|] == picks;
  }

  /** One Need's turn, scoring its Profile unless an earlier Need already did. */
  method Serve(snap: Snapshot, u: Shortfall, o: Options, claimed: set<MachineId>, cache: map<Profile, seq<Machine>>)
    returns (picks: seq<Machine>, rem: ResVec, next: map<Profile, seq<Machine>>)
    requires snap.Agrees() && !Skipped(u)
    requires forall p | p in cache :: cache[p] == Ranked(snap.machines, p, o)
    ensures picks == Attempt(snap.machines, u, o, claimed).0 && rem == Attempt(snap.machines, u, o, claimed).1
    ensures forall p | p in next :: next[p] == Ranked(snap.machines, p, o)
  {
    var p := u.need.profile;
    next := cache;
    if p !in next {
      var ranked := RankVictims(snap, p, o);
      next := next[p := ranked];
    }
    picks, rem := DrainVictims(next[p], u.need, u.domain, claimed, u.deficit);
  }

  /** What one Need adds to the phase's result. */
  method Turn(snap: Snapshot, u: Shortfall, o: Options, claimed: set<MachineId>, cache: map<Profile, seq<Machine>>)
    returns (actions: seq<Preemption>, left: seq<Shortfall>, taken: set<MachineId>, next: map<Profile, seq<Machine>>)
    requires snap.Agrees() && forall p | p in cache :: cache[p] == Ranked(snap.machines, p, o)
    ensures forall p | p in next :: next[p] == Ranked(snap.machines, p, o)
    ensures var (picks, rem) := Attempt(snap.machines, u, o, claimed);
            && actions == PreemptionsOf(u.need.profile, picks)
            && left == OptionSeq(Leftover(u, picks, rem))
            && taken == claimed + IdSet(picks)
  {
    if Skipped(u) {
      return [], [u], claimed, cache;
    }
    var picks, rem;
    picks, rem, next := Serve(snap, u, o, claimed, cache);
    actions, taken := Emit(u.need.profile, picks, claimed);
    left := [];
    if !IsZero(rem) {
      var freed := SumFreed(picks);
      left := [Shortfall(u.need, rem, "", 0, false, picks != [], |picks|, freed)];
    }
  }

  /** Phase 2. Needs of one Profile share the scored list; the result is what scoring
      afresh for every Need would give. */
  method Phase2(snap: Snapshot, unresolved: seq<Shortfall>, o: Options)
    returns (actions: seq<Preemption>, left: seq<Shortfall>)
    requires snap.Agrees()
    ensures (actions, left) == Run(snap.machines, ByPriority(unresolved), o, {})
  {
    actions, left := [], [];
    var order := ByPriority(unresolved);
    var claimed: set<MachineId> := {};
    var cache: map<Profile, seq<Machine>> := map[];
    ghost var goal := Run(snap.machines, order, o, {});
    assert order[0..] == order;
    assert [] + goal.0 == goal.0 && [] + goal.1 == goal.1;
    for i := 0 to |order|
      invariant forall p | p in cache :: cache[p] == Ranked(snap.machines, p, o)
      invariant goal == Prepend(actions, left, Run(snap.machines, order[i..], o, claimed))
    {
      RunStep(snap.machines, order[i..], o, claimed, actions, left);
      assert order[i..][1..] == order[i + 1..];
      var more, rest;
      more, rest, claimed, cache := Turn(snap, order[i], o, claimed, cache);
      actions, left := actions + more, left + rest;
    }
    assert actions + [] == actions && left + [] == left;
  }

  function Prepend(actions: seq<Preemption>, left: seq<Shortfall>, rest: (seq<Preemption>, seq<Shortfall>))
    : (seq<Preemption>, seq<Shortfall>)
  {
    (actions + rest.0, left + rest.1)
  }

  lemma RunStep(ms: seq<Machine>, us: seq<Shortfall>, o: Options, taken: set<MachineId>,
                actions: seq<Preemption>, left: seq<Shortfall>)
    requires us != []
    ensures var (picks, rem) := Attempt(ms, us[0], o, taken);
            Prepend(actions, left, Run(ms, us, o, taken)) ==
            Prepend(actions + PreemptionsOf(us[0].need.profile, picks), left + OptionSeq(Leftover(us[0], picks, rem)),
                    Run(ms, us[1..], o, taken + IdSet(picks)))
  {
    var (picks, rem) := Attempt(ms, us[0], o, taken);
    var (more, last) := Run(ms, us[1..], o, taken + IdSet(picks));
    Regroup(actions, PreemptionsOf(us[0].need.profile, picks), more);
    Regroup(left, OptionSeq(Leftover(us[0], picks, rem)), last);
  }
}
