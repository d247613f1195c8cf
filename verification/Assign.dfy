/** Phase 1 after the barrier: the outcome of every Need is rebuilt from the final
    ledger, and acquisitions become actions. */
module Assign {
  import opened Resources
  import opened Fleet
  import opened Views
  import opened Ledger
  import opened Broker
  import opened Cycle
  import opened Seed
  import opened Preempt
  import opened Sequences

  datatype NeedResult = NeedResult(claimed: seq<MachineId>, bootstrap: seq<MachineId>, provision: seq<MachineId>,
                                   deficit: ResVec, unsatisfied: bool, domain: string, satisfiable: bool)

  datatype Acquisition =
    | Bootstrap(id: MachineId, cluster: string, profile: Profile, group: string)
    | Provision(id: MachineId, cluster: string, profile: Profile, group: string)

  predicate InStateId(ms: seq<Machine>, id: MachineId, st: State) {
    ById(ms, id).Some? && ById(ms, id).value.state == st
  }

  /** The held machines, partitioned by where they come from; the deficit is what they
      leave of the demand. */
  ghost predicate ResultIs(env: Env, c: Claims, n: nat, domain: string, satisfiable: bool, r: NeedResult)
    requires n < |env.needs|
  {
    && r.domain == domain && r.satisfiable == satisfiable
    && r.deficit == Deficit(env, c, n) && r.unsatisfied == !IsZero(r.deficit)
    && Partition(env.machines, HeldBy(c, n), r)
  }

  ghost predicate Partition(ms: seq<Machine>, held: set<MachineId>, r: NeedResult) {
    && Distinct(r.claimed) && Distinct(r.bootstrap) && Distinct(r.provision)
    && (forall id :: id in r.claimed <==> id in held)
    && (forall id :: id in r.bootstrap <==> id in held && InStateId(ms, id, Idle))
    && (forall id :: id in r.provision <==> id in held && InStateId(ms, id, Speculative))
  }

  lemma HeldMissing(ms: seq<Machine>, ids: set<MachineId>, id: MachineId)
    requires ById(ms, id).None?
    ensures HeldAlloc(ms, ids + {id}) == HeldAlloc(ms, ids)
  {
    ByIdFound(ms, id);
    HeldElse(ms, ids, id);
  }

  lemma HeldNext(ms: seq<Machine>, ids: set<MachineId>, id: MachineId)
    requires Unique(ms) && id !in ids
    ensures HeldAlloc(ms, ids + {id}) ==
            match ById(ms, id) case None => HeldAlloc(ms, ids) case Some(m) => Add(HeldAlloc(ms, ids), Alloc(m))
  {
    ByIdFound(ms, id);
    match ById(ms, id)
    case None => HeldMissing(ms, ids, id);
    case Some(m) => HeldAdd(ms, ids, m);
  }

  /** Adds one held machine to a result under construction. */
  function Credit(r: NeedResult, id: MachineId, m: Option<Machine>): NeedResult {
    r.(claimed := r.claimed + [id],
       bootstrap := if m.Some? && m.value.state == Idle then r.bootstrap + [id] else r.bootstrap,
       provision := if m.Some? && m.value.state == Speculative then r.provision + [id] else r.provision)
  }

  lemma CreditPartition(ms: seq<Machine>, held: set<MachineId>, r: NeedResult, id: MachineId)
    requires Partition(ms, held, r) && id !in held
    ensures Partition(ms, held + {id}, Credit(r, id, ById(ms, id)))
  {
  }

  method OneResult(env: Env, state: SharedState, n: nat) returns (r: NeedResult)
    requires Unique(env.machines) && n < |env.needs| && state.Valid()
    ensures StateResult(env, state, n, r)
  {
    r := NeedResult([], [], [], map[], false, if n in state.sameDomain then state.sameDomain[n] else "",
                    n in state.sameSatisfiable && state.sameSatisfiable[n]);
    var held := state.ReverseOf(n);
    var todo, sum := held, map[];
    assert held - todo == {};
    HeldNothing(env.machines);
    while todo != {}
      invariant todo <= held && sum == HeldAlloc(env.machines, held - todo)
      invariant Partition(env.machines, held - todo, r)
      invariant r.domain == (if n in state.sameDomain then state.sameDomain[n] else "")
      invariant r.satisfiable == (n in state.sameSatisfiable && state.sameSatisfiable[n])
      decreases todo
    {
      var id :| id in todo;
      HeldNext(env.machines, held - todo, id);
      CreditPartition(env.machines, held - todo, r, id);
      assert held - todo + {id} == held - (todo - {id});
      todo := todo - {id};
      var m := ById(env.machines, id);
      r := Credit(r, id, m);
      if m.Some? {
        sum := Add(sum, Alloc(m.value));
      }
    }
    assert held - todo == held;
    r := r.(deficit := Sub(env.needs[n].aggregate, sum));
    r := r.(unsatisfied := !IsZero(r.deficit));
  }

  ghost predicate StateResult(env: Env, state: SharedState, n: nat, r: NeedResult)
    requires n < |env.needs|
    reads state
  {
    ResultIs(env, state.claimedBy, n, if n in state.sameDomain then state.sameDomain[n] else "",
             n in state.sameSatisfiable && state.sameSatisfiable[n], r)
  }

  /** The barrier's reconstruction, and the cycle's claimed set. */
  method Reconstruct(env: Env, state: SharedState) returns (results: seq<NeedResult>, claimed: set<MachineId>)
    requires Unique(env.machines) && state.Valid()
    ensures |results| == |env.needs|
    ensures forall n | 0 <= n < |env.needs| :: StateResult(env, state, n, results[n])
    ensures forall id :: id in claimed <==> id in state.claimedBy && state.claimedBy[id].need < |env.needs|
  {
    results, claimed := [], {};
    for n := 0 to |env.needs|
      invariant |results| == n
      invariant forall k | 0 <= k < n :: StateResult(env, state, k, results[k])
      invariant forall id :: id in claimed <==> id in state.claimedBy && state.claimedBy[id].need < n
    {
      var r := OneResult(env, state, n);
      ClaimedNext(env, state.claimedBy, n, r, claimed);
      results := results + [r];
      claimed := claimed + set id | id in r.claimed;
    }
  }

  lemma ClaimedNext(env: Env, c: Claims, n: nat, r: NeedResult, claimed: set<MachineId>)
    requires Partition(env.machines, HeldBy(c, n), r)
    requires forall id :: id in claimed <==> id in c && c[id].need < n
    ensures forall id :: id in claimed + (set id | id in r.claimed) <==> id in c && c[id].need < n + 1
  {
  }

  // ---- From results to actions --------------------------------------------

  function Bootstraps(n: Need, ids: seq<MachineId>): seq<Acquisition> {
    seq(|ids|, i requires 0 <= i < |ids| => Bootstrap(ids[i], n.cluster, n.profile, n.group))
  }

  function Provisions(n: Need, ids: seq<MachineId>): seq<Acquisition> {
    seq(|ids|, i requires 0 <= i < |ids| => Provision(ids[i], n.cluster, n.profile, n.group))
  }

  function ActionsUpTo(needs: seq<Need>, rs: seq<NeedResult>, k: nat): seq<Acquisition>
    requires k <= |needs| == |rs|
  {
    if k == 0 then []
    else ActionsUpTo(needs, rs, k - 1) + (Bootstraps(needs[k - 1], rs[k - 1].bootstrap)
                                          + Provisions(needs[k - 1], rs[k - 1].provision))
  }

  function ShortUpTo(needs: seq<Need>, rs: seq<NeedResult>, k: nat): seq<Shortfall>
    requires k <= |needs| == |rs|
  {
    if k == 0 then []
    else ShortUpTo(needs, rs, k - 1) +
         if rs[k - 1].unsatisfied then
           [Shortfall(needs[k - 1], rs[k - 1].deficit, rs[k - 1].domain,
                      |rs[k - 1].bootstrap| + |rs[k - 1].provision|, rs[k - 1].satisfiable, false, 0, map[])]
         else []
  }

  method Phase1(needs: seq<Need>, results: seq<NeedResult>) returns (actions: seq<Acquisition>, short: seq<Shortfall>)
    requires |needs| == |results|
    ensures actions == ActionsUpTo(needs, results, |needs|) && short == ShortUpTo(needs, results, |needs|)
  {
    actions, short := [], [];
    for k := 0 to |needs|
      invariant actions == ActionsUpTo(needs, results, k) && short == ShortUpTo(needs, results, k)
    {
      var n, r := needs[k], results[k];
      ghost var before := actions;
      for i := 0 to |r.bootstrap|
        invariant actions == before + Bootstraps(n, r.bootstrap[..i])
      {
        actions := actions + [Bootstrap(r.bootstrap[i], n.cluster, n.profile, n.group)];
      }
      assert r.bootstrap[..|r.bootstrap|] == r.bootstrap;
      ghost var half := actions;
      for i := 0 to |r.provision|
        invariant actions == half + Provisions(n, r.provision[..i])
      {
        actions := actions + [Provision(r.provision[i], n.cluster, n.profile, n.group)];
      }
      assert r.provision[..|r.provision|] == r.provision;
      if r.unsatisfied {
        var acquired := |r.bootstrap| + |r.provision|;
        short := short + [Shortfall(n, r.deficit, r.domain, acquired, r.satisfiable, false, 0, map[])];
      }
    }
  }

  /** The action that brings a held machine to its holder's cluster. */
  ghost predicate Acquires(env: Env, c: Claims, a: Acquisition) {
    && a.id in c && c[a.id].need < |env.needs|
    && var n := env.needs[c[a.id].need];
       a.cluster == n.cluster && a.profile == n.profile && a.group == n.group &&
       (if a.Bootstrap? then InStateId(env.machines, a.id, Idle) else InStateId(env.machines, a.id, Speculative))
  }

  ghost predicate Results(env: Env, c: Claims, rs: seq<NeedResult>) {
    |rs| == |env.needs| &&
    forall n | 0 <= n < |env.needs| ::
      Partition(env.machines, HeldBy(c, n), rs[n]) && rs[n].deficit == Deficit(env, c, n) &&
      rs[n].unsatisfied == !IsZero(rs[n].deficit)
  }

  predicate OnceEach(actions: seq<Acquisition>) {
    forall i, j | 0 <= i < j < |actions| :: actions[i].id != actions[j].id
  }

  ghost predicate ActionsOK(env: Env, c: Claims, actions: seq<Acquisition>, k: nat) {
    && OnceEach(actions)
    && (forall a | a in actions :: Acquires(env, c, a) && c[a.id].need < k)
    && (forall id | id in c && c[id].need < k &&
                    (InStateId(env.machines, id, Idle) || InStateId(env.machines, id, Speculative)) ::
          exists a :: a in actions && a.id == id)
  }

  lemma OneNeedActions(env: Env, c: Claims, n: nat, r: NeedResult)
    requires n < |env.needs| && Partition(env.machines, HeldBy(c, n), r)
    ensures var actions := Bootstraps(env.needs[n], r.bootstrap) + Provisions(env.needs[n], r.provision);
            && OnceEach(actions)
            && (forall a | a in actions :: Acquires(env, c, a) && c[a.id].need == n)
  {
    var b, p := Bootstraps(env.needs[n], r.bootstrap), Provisions(env.needs[n], r.provision);
    var all: seq<Acquisition> := b + p;
    forall i, j | 0 <= i < j < |all|
      ensures all[i].id != all[j].id
    {
      if i < |b| <= j {
        assert r.bootstrap[i] in r.bootstrap && r.provision[j - |b|] in r.provision;
      }
    }
    forall a | a in all
      ensures Acquires(env, c, a) && c[a.id].need == n
    {
      var i :| 0 <= i < |all| && all[i] == a;
      assert i < |b| ==> r.bootstrap[i] in r.bootstrap;
      assert i >= |b| ==> r.provision[i - |b|] in r.provision;
    }
  }

  lemma NeedCovered(env: Env, c: Claims, n: nat, r: NeedResult, id: MachineId)
    requires n < |env.needs| && Partition(env.machines, HeldBy(c, n), r) && id in HeldBy(c, n)
    requires InStateId(env.machines, id, Idle) || InStateId(env.machines, id, Speculative)
    ensures exists a :: a in Bootstraps(env.needs[n], r.bootstrap) + Provisions(env.needs[n], r.provision) && a.id == id
  {
    var b, p := Bootstraps(env.needs[n], r.bootstrap), Provisions(env.needs[n], r.provision);
    if id in r.bootstrap {
      var i :| 0 <= i < |r.bootstrap| && r.bootstrap[i] == id;
      assert b[i] in b + p && b[i].id == id;
    } else {
      var i :| 0 <= i < |r.provision| && r.provision[i] == id;
      assert p[i] in b + p && p[i].id == id;
    }
  }

  /** Phase 1 acts once on every Idle or Speculative machine of the final ledger, for
      the Need that holds it, and on no other machine. */
  lemma {:induction false} ActionsExact(env: Env, c: Claims, rs: seq<NeedResult>, k: nat)
    requires Results(env, c, rs) && k <= |env.needs|
    ensures ActionsOK(env, c, ActionsUpTo(env.needs, rs, k), k)
    decreases k
  {
    if k > 0 {
      var n := k - 1;
      ActionsExact(env, c, rs, n);
      OneNeedActions(env, c, n, rs[n]);
      var before := ActionsUpTo(env.needs, rs, n);
      var own: seq<Acquisition> :=
        Bootstraps(env.needs[n], rs[n].bootstrap) + Provisions(env.needs[n], rs[n].provision);
      var all: seq<Acquisition> := before + own;
      ActionsJoin(env, c, before, own, n);
      forall id | id in c && c[id].need < k &&
                  (InStateId(env.machines, id, Idle) || InStateId(env.machines, id, Speculative))
        ensures exists a :: a in all && a.id == id
      {
        if c[id].need == n {
          NeedCovered(env, c, n, rs[n], id);
          var a :| a in own && a.id == id;
          assert a in all;
        } else {
          var a :| a in before && a.id == id;
          assert a in all;
        }
      }
    }
  }

  lemma ActionsJoin(env: Env, c: Claims, before: seq<Acquisition>, own: seq<Acquisition>, n: nat)
    requires OnceEach(before) && OnceEach(own)
    requires forall a | a in before :: Acquires(env, c, a) && c[a.id].need < n
    requires forall a | a in own :: Acquires(env, c, a) && c[a.id].need == n
    ensures OnceEach(before + own)
    ensures forall a | a in before + own :: Acquires(env, c, a) && c[a.id].need < n + 1
  {
    var all := before + own;
    forall i, j | 0 <= i < j < |all|
      ensures all[i].id != all[j].id
    {
      if i < |before| <= j {
        assert all[i] in before && all[j] in own;
      }
    }
  }

  /** What is handed on of a short Need: its deficit, its domain, how many machines it
      acquired, and whether any domain could have covered it. */
  predicate ShortOf(env: Env, c: Claims, rs: seq<NeedResult>, u: Shortfall, n: nat) {
    && n < |env.needs| && n < |rs| && u.need == env.needs[n] && u.deficit == Deficit(env, c, n) && !IsZero(u.deficit)
    && u.domain == rs[n].domain && u.satisfiable == rs[n].satisfiable
    && u.acquired == |rs[n].bootstrap| + |rs[n].provision| && !u.preempted && u.victims == 0 && u.freed == map[]
  }

  /** Every short Need is handed on, with what the ledger leaves of it ... */
  lemma {:induction false} ShortReported(env: Env, c: Claims, rs: seq<NeedResult>, k: nat, n: nat)
    requires Results(env, c, rs) && n < k <= |env.needs| && !IsZero(Deficit(env, c, n))
    ensures exists u :: u in ShortUpTo(env.needs, rs, k) && ShortOf(env, c, rs, u, n)
    decreases k
  {
    var before, all := ShortUpTo(env.needs, rs, k - 1), ShortUpTo(env.needs, rs, k);
    if n < k - 1 {
      ShortReported(env, c, rs, k - 1, n);
      var u :| u in before && ShortOf(env, c, rs, u, n);
      assert u in all;
    } else {
      var u := all[|before|];
      assert u in all && ShortOf(env, c, rs, u, n);
    }
  }

  /** ... and nothing else is. */
  lemma {:induction false} ReportedShort(env: Env, c: Claims, rs: seq<NeedResult>, k: nat, u: Shortfall)
    requires Results(env, c, rs) && k <= |env.needs| && u in ShortUpTo(env.needs, rs, k)
    ensures exists n :: 0 <= n < k && ShortOf(env, c, rs, u, n)
    decreases k
  {
    if u in ShortUpTo(env.needs, rs, k - 1) {
      ReportedShort(env, c, rs, k - 1, u);
    } else {
      assert ShortOf(env, c, rs, u, k - 1);
    }
  }
}
