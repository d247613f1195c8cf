/** Acquisition parking: how many cycles in a row a gang's class stalled, and when that
    keeps it from acquiring. */
module Parking {
  import opened Fleet
  import opened Preempt

  const PARK_AFTER := 8
  const REPROBE_EVERY := 32

  predicate IsGang(n: Need) {
    SameKey(n.profile).Some?
  }

  type Ages = map<ClassKey, nat>

  function AgeOf(ages: Ages, k: ClassKey): nat {
    if k in ages then ages[k] else 0
  }

  /** The cycle acquired nothing for it and saw no domain that could cover it. */
  predicate Stalls(u: Shortfall) {
    u.acquired == 0 && !u.satisfiable
  }

  datatype Tally = Tally(ages: Ages, seen: set<ClassKey>)

  function Note(t: Tally, u: Shortfall): Tally {
    var k := ClassOf(u.need);
    if !IsGang(u.need) then t
    else if !Stalls(u) then t.(ages := t.ages - {k})
    else Tally(t.ages[k := AgeOf(t.ages, k) + 1], t.seen + {k})
  }

  function NoteAll(ages: Ages, us: seq<Shortfall>): Tally {
    if us == [] then Tally(ages, {}) else Note(NoteAll(ages, us[..|us| - 1]), us[|us| - 1])
  }

  /** The ages after a cycle: counted for what stalled, forgotten for everything else. */
  function Recorded(ages: Ages, us: seq<Shortfall>): Ages {
    var t := NoteAll(ages, us);
    map k | k in t.ages && k in t.seen :: t.ages[k]
  }

  predicate Parks(ages: Ages, n: Need) {
    IsGang(n) && AgeOf(ages, ClassOf(n)) >= PARK_AFTER && AgeOf(ages, ClassOf(n)) % REPROBE_EVERY != 0
  }

  class Ledger {
    var ages: Ages

    constructor ()
      ensures ages == map[]
    {
      ages := map[];
    }

    method RecordUnsatSameAges(us: seq<Shortfall>)
      modifies this
      ensures ages == Recorded(old(ages), us)
    {
      var seen: set<ClassKey> := {};
      ghost var before := ages;
      for i := 0 to |us|
        invariant Tally(ages, seen) == NoteAll(before, us[..i])
      {
        var u := us[i];
        var k := ClassOf(u.need);
        assert us[..i + 1][..i] == us[..i];
        if !IsGang(u.need) {
          continue;
        }
        if u.acquired > 0 || u.satisfiable {
          ages := ages - {k};
          continue;
        }
        seen := seen + {k};
        ages := ages[k := AgeOf(ages, k) + 1];
      }
      assert us[..|us|] == us;
      ghost var all := ages;
      var todo := ages.Keys;
      while todo != {}
        invariant todo <= all.Keys
        invariant ages == map k | k in all && (k in todo || k in seen) :: all[k]
        decreases todo
      {
        var k :| k in todo;
        todo := todo - {k};
        if k !in seen {
          ages := ages - {k};
        }
      }
    }

    /** Stamps the demand in place. */
    method StampParkedNeeds(demand: array<Need>)
      modifies demand
      ensures forall i | 0 <= i < demand.Length ::
                demand[i] == old(demand[i]).(parked := old(demand[i]).parked || Parks(ages, old(demand[i])))
    {
      if ages == map[] {
        return;
      }
      for i := 0 to demand.Length
        invariant forall j | 0 <= j < i ::
                    demand[j] == old(demand[j]).(parked := old(demand[j]).parked || Parks(ages, old(demand[j])))
        invariant forall j | i <= j < demand.Length :: demand[j] == old(demand[j])
      {
        if IsGang(demand[i]) {
          var age := AgeOf(ages, ClassOf(demand[i]));
          if age >= PARK_AFTER && age % REPROBE_EVERY != 0 {
            demand[i] := demand[i].(parked := true);
          }
        }
      }
    }
  }

  // ---- Over many cycles ---------------------------------------------------

  predicate OnePerClass(us: seq<Shortfall>) {
    forall i, j | 0 <= i < j < |us| && IsGang(us[i].need) && IsGang(us[j].need) ::
      !Alike(us[i].need, us[j].need)
  }

  /** The class came out of the cycle unsatisfied, having acquired nothing and with no domain
      that could have covered it. */
  predicate StalledIn(us: seq<Shortfall>, k: ClassKey) {
    exists u :: u in us && SameKey(u.need.profile).Some? && u.acquired == 0 && !u.satisfiable &&
                k == ClassKey(u.need.cluster, u.need.profile, u.need.group)
  }

  predicate Mentions(us: seq<Shortfall>, k: ClassKey) {
    exists u :: u in us && IsGang(u.need) && ClassOf(u.need) == k
  }

  ghost predicate Noted(ages: Ages, us: seq<Shortfall>, k: ClassKey) {
    var t := NoteAll(ages, us);
    && (k in t.seen <==> StalledIn(us, k))
    && (k in t.seen ==> k in t.ages && t.ages[k] == AgeOf(ages, k) + 1)
    && (!Mentions(us, k) ==> AgeOf(t.ages, k) == AgeOf(ages, k))
  }

  lemma NoteOne(ages: Ages, pre: seq<Shortfall>, u: Shortfall, k: ClassKey)
    requires Noted(ages, pre, k) && (IsGang(u.need) && ClassOf(u.need) == k ==> !Mentions(pre, k))
    ensures Noted(ages, pre + [u], k)
  {
    var us := pre + [u];
    assert us[..|us| - 1] == pre;
    var mine := IsGang(u.need) && ClassOf(u.need) == k;
    assert StalledIn(us, k) <==> StalledIn(pre, k) || (mine && u.acquired == 0 && !u.satisfiable);
    assert Mentions(us, k) <==> Mentions(pre, k) || (IsGang(u.need) && ClassOf(u.need) == k);
  }

  lemma {:induction false} NotedAge(ages: Ages, us: seq<Shortfall>, k: ClassKey)
    requires OnePerClass(us)
    ensures Noted(ages, us, k)
    decreases |us|
  {
    if us != [] {
      var pre, u := us[..|us| - 1], us[|us| - 1];
      NotedAge(ages, pre, k);
      assert us == pre + [u];
      if Mentions(pre, k) {
        var x :| x in pre && IsGang(x.need) && ClassOf(x.need) == k;
        var i :| 0 <= i < |pre| && pre[i] == x;
        assert us[i] == x;
      }
      NoteOne(ages, pre, u, k);
    }
  }

  /** One cycle: a class that stalled is one older, any other starts over. */
  lemma RecordedAge(ages: Ages, us: seq<Shortfall>, k: ClassKey)
    requires OnePerClass(us)
    ensures AgeOf(Recorded(ages, us), k) == if StalledIn(us, k) then AgeOf(ages, k) + 1 else 0
  {
    NotedAge(ages, us, k);
    assert Noted(ages, us, k);
  }

  function AgesAfter(cycles: seq<seq<Shortfall>>): Ages {
    if cycles == [] then map[] else Recorded(AgesAfter(cycles[..|cycles| - 1]), cycles[|cycles| - 1])
  }

  predicate OnePerClassAlways(cycles: seq<seq<Shortfall>>) {
    forall i | 0 <= i < |cycles| :: OnePerClass(cycles[i])
  }

  /** Length of the latest run of cycles in which the class stalled. */
  function StalledRun(cycles: seq<seq<Shortfall>>, k: ClassKey): nat {
    if cycles == [] || !StalledIn(cycles[|cycles| - 1], k) then 0 else 1 + StalledRun(cycles[..|cycles| - 1], k)
  }

  /** A class's age is the number of its latest consecutive stalled cycles. */
  lemma {:induction false} AgeIsRun(cycles: seq<seq<Shortfall>>, k: ClassKey)
    requires OnePerClassAlways(cycles)
    ensures AgeOf(AgesAfter(cycles), k) == StalledRun(cycles, k)
    decreases |cycles|
  {
    if cycles != [] {
      AgeIsRun(cycles[..|cycles| - 1], k);
      RecordedAge(AgesAfter(cycles[..|cycles| - 1]), cycles[|cycles| - 1], k);
    }
  }

  lemma {:induction false} RunStalled(cycles: seq<seq<Shortfall>>, k: ClassKey, i: nat)
    requires |cycles| - StalledRun(cycles, k) <= i < |cycles|
    ensures StalledRun(cycles, k) <= |cycles| && StalledIn(cycles[i], k)
    decreases |cycles|
  {
    if i < |cycles| - 1 {
      RunStalled(cycles[..|cycles| - 1], k, i);
    } else {
      RunLength(cycles, k);
    }
  }

  lemma RunLength(cycles: seq<seq<Shortfall>>, k: ClassKey)
    ensures StalledRun(cycles, k) <= |cycles|
  {
    if cycles != [] {
      RunLength(cycles[..|cycles| - 1], k);
    }
  }

  /** A gang is parked exactly when its class stalled in eight or more cycles in a row, except
      in every thirty-second of them. */
  lemma {:induction false} ParkedExactly(cycles: seq<seq<Shortfall>>, n: Need)
    requires OnePerClassAlways(cycles)
    ensures Parks(AgesAfter(cycles), n) <==>
            var run := StalledRun(cycles, ClassKey(n.cluster, n.profile, n.group));
            SameKey(n.profile).Some? && run >= 8 && run % 32 != 0
  {
    AgeIsRun(cycles, ClassOf(n));
  }

  /** Nobody is parked before eight stalled cycles in a row. */
  lemma {:induction false} NotParkedEarly(cycles: seq<seq<Shortfall>>, n: Need)
    requires OnePerClassAlways(cycles) && Parks(AgesAfter(cycles), n)
    ensures |cycles| >= 8
    ensures forall i | |cycles| - 8 <= i < |cycles| :: StalledIn(cycles[i], ClassOf(n))
  {
    var k := ClassOf(n);
    AgeIsRun(cycles, k);
    RunLength(cycles, k);
    forall i | |cycles| - PARK_AFTER <= i < |cycles|
      ensures StalledIn(cycles[i], k)
    {
      RunStalled(cycles, k, i);
    }
  }

  lemma RunGrows(cycles: seq<seq<Shortfall>>, k: ClassKey, t: nat)
    requires t < |cycles|
    ensures StalledRun(cycles[..t + 1], k) == if StalledIn(cycles[t], k) then StalledRun(cycles[..t], k) + 1 else 0
  {
    assert cycles[..t + 1][..t] == cycles[..t];
  }

  /** Parked through d more cycles, a class ages by d. */
  lemma {:induction false} ParkedAges(cycles: seq<seq<Shortfall>>, n: Need, t: nat, d: nat)
    requires OnePerClassAlways(cycles) && t + d <= |cycles|
    requires forall i | t <= i <= t + d :: Parks(AgesAfter(cycles[..i]), n)
    ensures StalledRun(cycles[..t + d], ClassOf(n)) == StalledRun(cycles[..t], ClassOf(n)) + d
    decreases d
  {
    if d > 0 {
      ParkedAges(cycles, n, t, d - 1);
      RunGrows(cycles, ClassOf(n), t + d - 1);
      AgeIsRun(cycles[..t + d], ClassOf(n));
      assert Parks(AgesAfter(cycles[..t + d]), n);
    }
  }

  lemma ToMultiple(a: nat) returns (d: nat)
    ensures d < REPROBE_EVERY && (a + d) % REPROBE_EVERY == 0
  {
    d := (REPROBE_EVERY - a % REPROBE_EVERY) % REPROBE_EVERY;
  }

  /** Nobody stays parked for 32 cycles in a row: among any 32, one re-probes. */
  lemma ReprobesInTime(cycles: seq<seq<Shortfall>>, n: Need, t: nat)
    requires OnePerClassAlways(cycles) && t + 31 <= |cycles|
    ensures exists i :: t <= i < t + 32 && !Parks(AgesAfter(cycles[..i]), n)
  {
    if forall i | t <= i < t + REPROBE_EVERY :: Parks(AgesAfter(cycles[..i]), n) {
      var d := ToMultiple(StalledRun(cycles[..t], ClassOf(n)));
      ParkedAges(cycles, n, t, d);
      AgeIsRun(cycles[..t + d], ClassOf(n));
    }
  }
}
