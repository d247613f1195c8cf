/** The books of phase 2: who is preempted, for whom, how much, and when the shortcut
    that skips the walk is exact. */
module PreemptSafety {
  import opened Resources
  import opened Fleet
  import opened Scoring
  import opened Views
  import opened Inventory
  import opened Preempt
  import opened Sequences

  /** `m` is one of the machines the Need could still preempt. */
  predicate Open(ranked: seq<Machine>, n: Need, domain: string, taken: set<MachineId>, m: Machine) {
    m in ranked && m.id !in taken && Eligible(n, domain, m)
  }

  /** Each pick is open at its moment, scores no worse than any other machine then open,
      and is made while a deficit remains; the walk ends short only with none open. */
  ghost predicate Greedy(ranked: seq<Machine>, n: Need, domain: string, taken: set<MachineId>, deficit: ResVec,
                         picks: seq<Machine>, rem: ResVec, o: Order) {
    && PicksOK(ranked, n, domain, taken, deficit, picks, o)
    && rem == Sub(deficit, SumAlloc(picks))
    && (!IsZero(rem) ==> forall m | m in ranked && Open(ranked, n, domain, taken, m) :: m in picks)
  }

  ghost predicate PicksOK(ranked: seq<Machine>, n: Need, domain: string, taken: set<MachineId>, deficit: ResVec,
                          picks: seq<Machine>, o: Order) {
    forall k | 0 <= k < |picks| :: PickOK(ranked, n, domain, taken, deficit, picks, k, o)
  }

  ghost predicate PickOK(ranked: seq<Machine>, n: Need, domain: string, taken: set<MachineId>, deficit: ResVec,
                         picks: seq<Machine>, k: nat, o: Order)
    requires k < |picks|
  {
    Best(ranked, n, domain, taken + IdSet(picks[..k]), Sub(deficit, SumAlloc(picks[..k])), picks[k], o)
  }

  predicate Best(ranked: seq<Machine>, n: Need, domain: string, used: set<MachineId>, left: ResVec, m: Machine,
                 o: Order)
  {
    && Open(ranked, n, domain, used, m) && !IsZero(left)
    && forall x | x in ranked && Open(ranked, n, domain, used, x) :: !Before(o, x, m)
  }

  lemma TailSorted(o: Order, ranked: seq<Machine>)
    requires Sorted(o, ranked) && Unique(ranked) && ranked != []
    ensures Sorted(o, ranked[1..]) && Unique(ranked[1..])
    ensures forall m | m in ranked[1..] :: m.id != ranked[0].id && !Before(o, m, ranked[0])
  {
  }

  lemma SkipGreedy(h: Machine, t: seq<Machine>, n: Need, domain: string, taken: set<MachineId>, deficit: ResVec,
                   picks: seq<Machine>, rem: ResVec, o: Order)
    requires h.id in taken || !Eligible(n, domain, h)
    requires Greedy(t, n, domain, taken, deficit, picks, rem, o)
    ensures Greedy([h] + t, n, domain, taken, deficit, picks, rem, o)
  {
    forall k | 0 <= k < |picks|
      ensures PickOK([h] + t, n, domain, taken, deficit, picks, k, o)
    {
      assert PickOK(t, n, domain, taken, deficit, picks, k, o);
    }
  }

  lemma BestFirst(h: Machine, t: seq<Machine>, n: Need, domain: string, used: set<MachineId>, left: ResVec, o: Order)
    requires !IsZero(left) && h.id !in used && Eligible(n, domain, h)
    requires forall m | m in t :: !Before(o, m, h)
    ensures Best([h] + t, n, domain, used, left, h, o)
  {
    BeforeOrder(o, h, h, h);
  }

  lemma BestLater(h: Machine, t: seq<Machine>, n: Need, domain: string, used: set<MachineId>, left: ResVec, m: Machine,
                  o: Order)
    requires Best(t, n, domain, used, left, m, o) && m.id != h.id
    ensures Best([h] + t, n, domain, used + {h.id}, left, m, o)
  {
  }

  lemma PrefixOf(h: Machine, picks: seq<Machine>, k: nat, taken: set<MachineId>, deficit: ResVec)
    requires k <= |picks|
    ensures taken + IdSet(([h] + picks)[..k + 1]) == taken + IdSet(picks[..k]) + {h.id}
    ensures Sub(deficit, SumAlloc(([h] + picks)[..k + 1])) == Sub(Sub(deficit, Alloc(h)), SumAlloc(picks[..k]))
  {
    var pre := [h] + picks[..k];
    assert ([h] + picks)[..k + 1] == pre && pre[1..] == picks[..k];
    SubSub(deficit, Alloc(h), SumAlloc(picks[..k]));
  }

  lemma TakeLater(h: Machine, t: seq<Machine>, n: Need, domain: string, taken: set<MachineId>, deficit: ResVec,
                  picks: seq<Machine>, k: nat, o: Order)
    requires k < |picks| && PickOK(t, n, domain, taken, Sub(deficit, Alloc(h)), picks, k, o)
    requires forall m | m in t :: m.id != h.id
    ensures PickOK([h] + t, n, domain, taken, deficit, [h] + picks, k + 1, o)
  {
    PrefixOf(h, picks, k, taken, deficit);
    BestLater(h, t, n, domain, taken + IdSet(picks[..k]), Sub(Sub(deficit, Alloc(h)), SumAlloc(picks[..k])),
              picks[k], o);
  }

  lemma TakeFirst(h: Machine, t: seq<Machine>, n: Need, domain: string, taken: set<MachineId>, deficit: ResVec,
                  picks: seq<Machine>, o: Order)
    requires !IsZero(deficit) && h.id !in taken && Eligible(n, domain, h)
    requires forall m | m in t :: !Before(o, m, h)
    ensures PickOK([h] + t, n, domain, taken, deficit, [h] + picks, 0, o)
  {
    SubNothing(deficit);
    assert ([h] + picks)[..0] == [] && taken + IdSet([]) == taken;
    BestFirst(h, t, n, domain, taken, deficit, o);
  }

  lemma TakePicks(h: Machine, t: seq<Machine>, n: Need, domain: string, taken: set<MachineId>, deficit: ResVec,
                  picks: seq<Machine>, o: Order)
    requires !IsZero(deficit) && h.id !in taken && Eligible(n, domain, h)
    requires forall m | m in t :: m.id != h.id && !Before(o, m, h)
    requires PicksOK(t, n, domain, taken, Sub(deficit, Alloc(h)), picks, o)
    ensures PicksOK([h] + t, n, domain, taken, deficit, [h] + picks, o)
  {
    forall k | 0 <= k < |[h] + picks|
      ensures PickOK([h] + t, n, domain, taken, deficit, [h] + picks, k, o)
    {
      if k == 0 {
        TakeFirst(h, t, n, domain, taken, deficit, picks, o);
      } else {
        TakeLater(h, t, n, domain, taken, deficit, picks, k - 1, o);
      }
    }
  }

  lemma TakeRest(h: Machine, t: seq<Machine>, n: Need, domain: string, taken: set<MachineId>, picks: seq<Machine>)
    requires forall m | m in t && Open(t, n, domain, taken, m) :: m in picks
    ensures forall m | m in [h] + t && Open([h] + t, n, domain, taken, m) :: m in [h] + picks
  {
    forall m | m in [h] + t && Open([h] + t, n, domain, taken, m)
      ensures m in [h] + picks
    {
      if m != h {
        assert m in t && Open(t, n, domain, taken, m);
      }
    }
  }

  lemma TakeGreedy(h: Machine, t: seq<Machine>, n: Need, domain: string, taken: set<MachineId>, deficit: ResVec,
                   picks: seq<Machine>, rem: ResVec, o: Order)
    requires !IsZero(deficit) && h.id !in taken && Eligible(n, domain, h)
    requires forall m | m in t :: m.id != h.id && !Before(o, m, h)
    requires Greedy(t, n, domain, taken, Sub(deficit, Alloc(h)), picks, rem, o)
    ensures Greedy([h] + t, n, domain, taken, deficit, [h] + picks, rem, o)
  {
    TakePicks(h, t, n, domain, taken, deficit, picks, o);
    assert ([h] + picks)[1..] == picks;
    SubSub(deficit, Alloc(h), SumAlloc(picks));
    if !IsZero(rem) {
      TakeRest(h, t, n, domain, taken, picks);
    }
  }

  /** The drain takes the best-scoring open machine, again and again, until the deficit
      is covered or nothing is open; its residual is the deficit less what it freed. */
  lemma {:induction false} DrainGreedy(ranked: seq<Machine>, n: Need, domain: string, taken: set<MachineId>,
                                       deficit: ResVec, o: Order)
    requires Sorted(o, ranked) && Unique(ranked)
    ensures var (picks, rem) := Drain(ranked, n, domain, taken, deficit);
            Greedy(ranked, n, domain, taken, deficit, picks, rem, o)
    decreases |ranked|
  {
    if ranked == [] || IsZero(deficit) {
      SubNothing(deficit);
    } else {
      var h, t := ranked[0], ranked[1..];
      assert ranked == [h] + t;
      TailSorted(o, ranked);
      if h.id in taken || !Eligible(n, domain, h) {
        DrainGreedy(t, n, domain, taken, deficit, o);
        var (picks, rem) := Drain(t, n, domain, taken, deficit);
        SkipGreedy(h, t, n, domain, taken, deficit, picks, rem, o);
      } else {
        DrainGreedy(t, n, domain, taken, Sub(deficit, Alloc(h)), o);
        var (picks, rem) := Drain(t, n, domain, taken, Sub(deficit, Alloc(h)));
        TakeGreedy(h, t, n, domain, taken, deficit, picks, rem, o);
      }
    }
  }

  // ---- The whole phase ----------------------------------------------------

  datatype Served = Served(u: Shortfall, picks: seq<Machine>, rem: ResVec)

  function Turns(ms: seq<Machine>, us: seq<Shortfall>, o: Options, taken: set<MachineId>): seq<Served> {
    if us == [] then []
    else
      var (picks, rem) := Attempt(ms, us[0], o, taken);
      [Served(us[0], picks, rem)] + Turns(ms, us[1..], o, taken + IdSet(picks))
  }

  function ActionsOf(turns: seq<Served>): seq<Preemption> {
    if turns == [] then []
    else PreemptionsOf(turns[0].u.need.profile, turns[0].picks) + ActionsOf(turns[1..])
  }

  function LeftOf(turns: seq<Served>): seq<Shortfall> {
    if turns == [] then []
    else OptionSeq(Leftover(turns[0].u, turns[0].picks, turns[0].rem)) + LeftOf(turns[1..])
  }

  function PicksOf(turns: seq<Served>): seq<Machine> {
    if turns == [] then [] else turns[0].picks + PicksOf(turns[1..])
  }

  lemma RunTurns(ms: seq<Machine>, us: seq<Shortfall>, o: Options, taken: set<MachineId>)
    ensures Run(ms, us, o, taken) == (ActionsOf(Turns(ms, us, o, taken)), LeftOf(Turns(ms, us, o, taken)))
  {
    if us != [] {
      var (picks, rem) := Attempt(ms, us[0], o, taken);
      var rest := Turns(ms, us[1..], o, taken + IdSet(picks));
      RunTurns(ms, us[1..], o, taken + IdSet(picks));
      assert ([Served(us[0], picks, rem)] + rest)[1..] == rest;
    }
  }

  /** Who may be preempted for a Need. */
  predicate MayPreempt(ms: seq<Machine>, u: Shortfall, m: Machine) {
    && m in ms && m.state == Configured
    && m.assignedPriority < u.need.profile.priority
    && Fits(u.need, m)
    && (SameKey(u.need.profile).Some? ==> u.domain != "" && Lookup(SameKey(u.need.profile).value, m) == Some(u.domain))
    && !u.need.parked
  }

  ghost predicate TurnOK(ms: seq<Machine>, o: Options, taken: set<MachineId>, t: Served) {
    && (forall m | m in t.picks :: MayPreempt(ms, t.u, m) && m.id !in taken)
    && Unique(t.picks)
    && (if Skipped(t.u) then t.picks == [] && t.rem == t.u.deficit
        else Greedy(Ranked(ms, t.u.need.profile, o), t.u.need, t.u.domain, taken, t.u.deficit, t.picks, t.rem,
                    VictimOrder(t.u.need.profile, o)))
  }

  lemma RankedIn(ms: seq<Machine>, p: Profile, o: Options, m: Machine)
    ensures m in AllVictims(ms, p, o) <==>
            m in Source(ms, Configured, p) && m.assignedPriority < p.priority && Matches(p, m)
    ensures m in Ranked(ms, p, o) ==> m in AllVictims(ms, p, o)
  {
    SortIn(VictimOrder(p, o), Select(Victim(p), Source(ms, Configured, p)), m);
    SelectIn(Victim(p), Source(ms, Configured, p), m);
  }

  lemma RankedSorted(ms: seq<Machine>, p: Profile, o: Options)
    requires Unique(ms) && PinsDistinct(p)
    ensures Sorted(VictimOrder(p, o), Ranked(ms, p, o)) && Unique(Ranked(ms, p, o))
  {
    var kept := Select(Victim(p), Source(ms, Configured, p));
    SourceUnique(ms, Configured, p);
    SelectUnique(Victim(p), Source(ms, Configured, p));
    SortUnique(VictimOrder(p, o), kept);
    SortSorted(VictimOrder(p, o), kept);
  }

  lemma PicksFresh(ranked: seq<Machine>, n: Need, domain: string, taken: set<MachineId>, deficit: ResVec,
                   picks: seq<Machine>, rem: ResVec, o: Order)
    requires Greedy(ranked, n, domain, taken, deficit, picks, rem, o)
    ensures Unique(picks) && forall m | m in picks :: Open(ranked, n, domain, taken, m)
  {
    forall i, j | 0 <= i < j < |picks|
      ensures picks[i].id != picks[j].id
    {
      assert PickOK(ranked, n, domain, taken, deficit, picks, j, o);
      assert picks[i] in picks[..j];
    }
    forall m | m in picks
      ensures Open(ranked, n, domain, taken, m)
    {
      var k :| 0 <= k < |picks| && picks[k] == m;
      assert PickOK(ranked, n, domain, taken, deficit, picks, k, o);
    }
  }

  lemma AttemptOK(ms: seq<Machine>, u: Shortfall, o: Options, taken: set<MachineId>)
    requires Unique(ms) && PinsDistinct(u.need.profile)
    ensures var (picks, rem) := Attempt(ms, u, o, taken); TurnOK(ms, o, taken, Served(u, picks, rem))
  {
    if !Skipped(u) {
      var p := u.need.profile;
      var (picks, rem) := Attempt(ms, u, o, taken);
      RankedSorted(ms, p, o);
      DrainGreedy(Ranked(ms, p, o), u.need, u.domain, taken, u.deficit, VictimOrder(p, o));
      PicksFresh(Ranked(ms, p, o), u.need, u.domain, taken, u.deficit, picks, rem, VictimOrder(p, o));
      forall m | m in picks
        ensures MayPreempt(ms, u, m) && m.id !in taken
      {
        RankedIn(ms, p, o, m);
        SourceIn(ms, Configured, p, m);
      }
    }
  }

  /** The machines of a run's earlier turns, as the later ones see them. */
  function TakenBefore(turns: seq<Served>, k: nat, taken: set<MachineId>): set<MachineId>
    requires k <= |turns|
  {
    if k == 0 then taken else TakenBefore(turns[1..], k - 1, taken + IdSet(turns[0].picks))
  }

  lemma {:induction false} TurnsOK(ms: seq<Machine>, us: seq<Shortfall>, o: Options, taken: set<MachineId>)
    requires Unique(ms) && forall u | u in us :: PinsDistinct(u.need.profile)
    ensures var turns := Turns(ms, us, o, taken);
            && |turns| == |us|
            && forall k | 0 <= k < |us| :: turns[k].u == us[k] && TurnOK(ms, o, TakenBefore(turns, k, taken), turns[k])
    ensures Unique(PicksOf(Turns(ms, us, o, taken)))
    ensures forall m | m in PicksOf(Turns(ms, us, o, taken)) :: m.id !in taken
    decreases |us|
  {
    if us != [] {
      var u, rest := us[0], us[1..];
      assert u in us;
      var (picks, rem) := Attempt(ms, u, o, taken);
      AttemptOK(ms, u, o, taken);
      var after := taken + IdSet(picks);
      TurnsOK(ms, rest, o, after);
      var turns := Turns(ms, us, o, taken);
      var later := Turns(ms, rest, o, after);
      assert turns[1..] == later;
      forall k | 0 <= k < |us|
        ensures turns[k].u == us[k] && TurnOK(ms, o, TakenBefore(turns, k, taken), turns[k])
      {
        if k > 0 {
          assert turns[k] == later[k - 1] && us[k] == rest[k - 1];
        }
      }
      forall x, y | x in picks && y in PicksOf(later)
        ensures x.id != y.id
      {
        assert x.id in IdSet(picks);
      }
      UniqueConcat(picks, PicksOf(later));
    }
  }

  lemma {:induction false} ActionIds(turns: seq<Served>)
    ensures |ActionsOf(turns)| == |PicksOf(turns)|
    ensures forall i | 0 <= i < |PicksOf(turns)| :: ActionsOf(turns)[i].id == PicksOf(turns)[i].id
    decreases |turns|
  {
    if turns != [] {
      ActionIds(turns[1..]);
    }
  }

  /** The books of phase 2. Needs are served in priority order. Every machine preempted
      for a Need is Configured, serves a strictly lower priority, can host a unit of the
      Need and lies in its domain; it is the best-scoring such machine still free in the
      Need's ranked pool, taken while a deficit remains. No machine is preempted twice.
      What is reported short is the deficit less what was freed, and nothing is reported
      once that is zero; parked Needs and gangs without a domain pass through untouched.
      What the ranked pool lacks of the fleet is said by RankedExactly. */
  lemma Phase2Books(ms: seq<Machine>, unresolved: seq<Shortfall>, o: Options)
    requires Unique(ms) && forall u | u in ByPriority(unresolved) :: PinsDistinct(u.need.profile)
    ensures var us := ByPriority(unresolved);
            var turns := Turns(ms, us, o, {});
            && Run(ms, us, o, {}) == (ActionsOf(turns), LeftOf(turns))
            && |turns| == |us|
            && (forall k | 0 <= k < |us| :: turns[k].u == us[k] && TurnOK(ms, o, TakenBefore(turns, k, {}), turns[k]))
            && forall i, j | 0 <= i < j < |ActionsOf(turns)| :: ActionsOf(turns)[i].id != ActionsOf(turns)[j].id
  {
    var us := ByPriority(unresolved);
    RunTurns(ms, us, o, {});
    TurnsOK(ms, us, o, {});
    ActionIds(Turns(ms, us, o, {}));
  }

  // ---- The shortcut -------------------------------------------------------

  lemma NoneBelow(ms: seq<Machine>, q: Query, priority: int, m: Machine)
    requires LeastPriority(Select(q, ms)) >= priority && m in ms && Holds(q, m)
    ensures m.assignedPriority >= priority
  {
    SelectIn(q, ms, m);
    LeastIs(Select(q, ms));
  }

  /** Where the minima are kept, the shortcut fires only if the walk finds nobody. */
  lemma ShortcutSound(ms: seq<Machine>, p: Profile, o: Options)
    requires NoVictim(ms, p) && (PinnedTypes(p).Some? || HasTyped(ms, Configured))
    ensures AllVictims(ms, p, o) == []
  {
    var all := AllVictims(ms, p, o);
    SomeElement(all);
    forall m | m in all
      ensures false
    {
      RankedIn(ms, p, o, m);
      SourceIn(ms, Configured, p, m);
      match PinnedTypes(p)
      case None => NoneBelow(ms, InState(Configured), p.priority, m);
      case Some(types) => NoneBelow(ms, OfType(Configured, m.instanceType), p.priority, m);
    }
  }

  /** The shortcut is exact for every Profile of 32-bit priority if and only if some
      Configured machine declares an instance type, or none of them serves less than
      the greatest priority. */
  lemma ShortcutExact(ms: seq<Machine>, o: Options)
    ensures (forall p: Profile | p.priority <= MAX_INT32 :: Ranked(ms, p, o) == AllVictims(ms, p, o)) <==>
            (HasTyped(ms, Configured) ||
             forall m | m in ms && m.state == Configured :: m.assignedPriority >= MAX_INT32)
  {
    if HasTyped(ms, Configured) {
      forall p: Profile | NoVictim(ms, p) {
        ShortcutSound(ms, p, o);
      }
    } else if m :| m in ms && m.state == Configured && m.assignedPriority < MAX_INT32 {
      ShortcutMisses(ms, m, o);
    } else {
      forall p: Profile | p.priority <= MAX_INT32
        ensures AllVictims(ms, p, o) == []
      {
        NobodyBelow(ms, p, o);
      }
    }
  }

  lemma NobodyBelow(ms: seq<Machine>, p: Profile, o: Options)
    requires p.priority <= MAX_INT32
    requires forall m | m in ms && m.state == Configured :: m.assignedPriority >= MAX_INT32
    ensures AllVictims(ms, p, o) == []
  {
    var all := AllVictims(ms, p, o);
    SomeElement(all);
    forall m | m in all
      ensures false
    {
      RankedIn(ms, p, o, m);
      SourceIn(ms, Configured, p, m);
    }
  }

  const TOP := Profile([], [], MAX_INT32, 0, 0)

  lemma ShortcutMisses(ms: seq<Machine>, m: Machine, o: Options)
    requires !HasTyped(ms, Configured) && m in ms && m.state == Configured && m.assignedPriority < MAX_INT32
    ensures Ranked(ms, TOP, o) == [] && m in AllVictims(ms, TOP, o)
  {
    RankedIn(ms, TOP, o, m);
    SourceIn(ms, Configured, TOP, m);
  }

  /** A fleet on which the shortcut loses a victim: one Configured machine that declares
      no instance type, serving priority 0, against an unpinned Need of priority 1. */
  lemma ShortcutLoses(o: Options)
    ensures var m := Machine(0, Configured, true, "c", "", OnDemand, "", "", map[], 1.0, 0.0, map["cpu" := 1], map[],
                             0, Amount(0.0), Amount(0.0), None, "");
            var p := Profile([], [], 1, 0, 0);
            WellFormed(m) && Ranked([m], p, o) == [] && AllVictims([m], p, o) == [m]
  {
    var m := Machine(0, Configured, true, "c", "", OnDemand, "", "", map[], 1.0, 0.0, map["cpu" := 1], map[],
                     0, Amount(0.0), Amount(0.0), None, "");
    var p := Profile([], [], 1, 0, 0);
    assert Select(InState(Configured), [m]) == [m];
    assert Select(Victim(p), [m]) == [m];
    assert Sort(VictimOrder(p, o), [m]) == [m];
  }

  // ---- The pool against the fleet -----------------------------------------

  /** The walk for the Profile gets to see the machine: a pinned Profile's pool lists
      machines that declare their type, an unpinned one's is walked only if some
      Configured machine declares one. */
  predicate Visible(ms: seq<Machine>, p: Profile, m: Machine) {
    if PinnedTypes(p).Some? then m.instanceType != "" else HasTyped(ms, Configured)
  }

  /** The ranked pool against the fleet: it holds exactly the visible Configured machines
      that match and serve a strictly lower priority. */
  lemma RankedExactly(ms: seq<Machine>, p: Profile, o: Options, m: Machine)
    requires p.priority <= MAX_INT32
    ensures m in Ranked(ms, p, o) <==>
            m in ms && m.state == Configured && m.assignedPriority < p.priority && Matches(p, m) && Visible(ms, p, m)
  {
    RankedIn(ms, p, o, m);
    SourceIn(ms, Configured, p, m);
    if m in ms && m.state == Configured && Matches(p, m) {
      VisibleSource(ms, p, m);
    }
    if NoVictim(ms, p) && (PinnedTypes(p).Some? || HasTyped(ms, Configured)) {
      ShortcutSound(ms, p, o);
    }
  }

  lemma VisibleSource(ms: seq<Machine>, p: Profile, m: Machine)
    requires m in ms && m.state == Configured && Matches(p, m)
    ensures m in Source(ms, Configured, p) <==> PinnedTypes(p).None? || m.instanceType != ""
  {
    PoolMisses(ms, Configured, p, m);
    PoolIn(ms, Configured, p, m);
    SourceIn(ms, Configured, p, m);
  }

  /** A Need left short has used up every visible machine it may preempt, or an earlier
      one has. */
  lemma ShortUsedUp(ms: seq<Machine>, o: Options, taken: set<MachineId>, t: Served, m: Machine)
    requires TurnOK(ms, o, taken, t) && !IsZero(t.rem) && t.u.need.profile.priority <= MAX_INT32
    requires MayPreempt(ms, t.u, m) && Visible(ms, t.u.need.profile, m)
    ensures m.id in taken || m in t.picks
  {
    RankedExactly(ms, t.u.need.profile, o, m);
  }

  function ScoreOf(u: Shortfall, o: Options, m: Machine): real {
    VictimScore(u.need.profile.priority, m, o.drainSeconds, o.weights)
  }

  lemma NotBeforeScore(u: Shortfall, o: Options, m: Machine, pick: Machine)
    requires !Before(VictimOrder(u.need.profile, o), m, pick)
    ensures ScoreOf(u, o, pick) > ScoreOf(u, o, m) || (ScoreOf(u, o, pick) == ScoreOf(u, o, m) && pick.id <= m.id)
  {
  }

  lemma PickNotAfter(ms: seq<Machine>, o: Options, taken: set<MachineId>, t: Served, k: nat, m: Machine)
    requires TurnOK(ms, o, taken, t) && k < |t.picks| && t.u.need.profile.priority <= MAX_INT32
    requires MayPreempt(ms, t.u, m) && Visible(ms, t.u.need.profile, m)
    requires m.id !in taken && m.id !in IdSet(t.picks[..k])
    ensures !Before(VictimOrder(t.u.need.profile, o), m, t.picks[k])
  {
    var p := t.u.need.profile;
    RankedExactly(ms, p, o, m);
    assert PickOK(Ranked(ms, p, o), t.u.need, t.u.domain, taken, t.u.deficit, t.picks, k, VictimOrder(p, o));
  }

  /** Every pick scores no worse than any visible machine the Need might have preempted
      instead at that moment; of equal score the lesser id is picked. */
  lemma PickIsBest(ms: seq<Machine>, o: Options, taken: set<MachineId>, t: Served, k: nat, m: Machine)
    requires TurnOK(ms, o, taken, t) && k < |t.picks| && t.u.need.profile.priority <= MAX_INT32
    requires MayPreempt(ms, t.u, m) && Visible(ms, t.u.need.profile, m)
    requires m.id !in taken && m.id !in IdSet(t.picks[..k])
    ensures var mine, other := ScoreOf(t.u, o, t.picks[k]), ScoreOf(t.u, o, m);
            mine > other || (mine == other && t.picks[k].id <= m.id)
  {
    PickNotAfter(ms, o, taken, t, k, m);
    NotBeforeScore(t.u, o, m, t.picks[k]);
  }

  lemma {:induction false} TakenFrom(turns: seq<Served>, k: nat, taken: set<MachineId>, id: MachineId)
    requires k <= |turns| && id in TakenBefore(turns, k, taken) && id !in taken
    ensures exists j :: 0 <= j < k && id in IdSet(turns[j].picks)
    decreases k
  {
    if k > 0 && id !in IdSet(turns[0].picks) {
      TakenFrom(turns[1..], k - 1, taken + IdSet(turns[0].picks), id);
      var j :| 0 <= j < k - 1 && id in IdSet(turns[1..][j].picks);
      assert turns[j + 1] == turns[1..][j];
    }
  }

  lemma {:induction false} PickedIsNamed(turns: seq<Served>, j: nat, m: Machine)
    requires j < |turns| && m in turns[j].picks
    ensures exists a :: a in ActionsOf(turns) && a.id == m.id
  {
    ActionIds(turns);
    PickedIn(turns, j, m);
    var i :| 0 <= i < |PicksOf(turns)| && PicksOf(turns)[i] == m;
    assert ActionsOf(turns)[i] in ActionsOf(turns);
  }

  lemma {:induction false} PickedIn(turns: seq<Served>, j: nat, m: Machine)
    requires j < |turns| && m in turns[j].picks
    ensures m in PicksOf(turns)
    decreases j
  {
    if j > 0 {
      PickedIn(turns[1..], j - 1, m);
    }
  }

  /** Nobody is left. After phase 2, if a Need that may preempt is still short, every visible
      machine it may preempt was preempted: for itself, or for a Need served before it, which
      has no lower priority. An action says so. */
  lemma NobodyLeft(ms: seq<Machine>, unresolved: seq<Shortfall>, o: Options, k: nat, m: Machine)
    requires Unique(ms) && forall u | u in ByPriority(unresolved) :: PinsDistinct(u.need.profile)
    requires k < |ByPriority(unresolved)|
    requires var u := ByPriority(unresolved)[k];
             && u.need.profile.priority <= MAX_INT32
             && MayPreempt(ms, u, m) && Visible(ms, u.need.profile, m)
    ensures var us := ByPriority(unresolved);
            var turns := Turns(ms, us, o, {});
            && |turns| == |us|
            && (IsZero(turns[k].rem) ||
                ((exists j :: 0 <= j <= k && m in turns[j].picks
                              && us[j].need.profile.priority >= us[k].need.profile.priority)
                 && exists a :: a in Run(ms, us, o, {}).0 && a.id == m.id))
  {
    var us := ByPriority(unresolved);
    var turns := Turns(ms, us, o, {});
    TurnsOK(ms, us, o, {});
    ByPriorityStable(unresolved, 0);
    if !IsZero(turns[k].rem) {
      assert turns[k].u == us[k] && TurnOK(ms, o, TakenBefore(turns, k, {}), turns[k]);
      ShortUsedUp(ms, o, TakenBefore(turns, k, {}), turns[k], m);
      if m !in turns[k].picks {
        TakenFrom(turns, k, {}, m.id);
        var j :| 0 <= j < k && m.id in IdSet(turns[j].picks);
        assert turns[j].u == us[j] && TurnOK(ms, o, TakenBefore(turns, j, {}), turns[j]);
        var x :| x in turns[j].picks && x.id == m.id;
        IdFixes(ms, x, m);
      }
      var j :| 0 <= j <= k && m in turns[j].picks;
      PickedIsNamed(turns, j, m);
      RunTurns(ms, us, o, {});
    }
  }

  // ---- What is emitted, what is reported ----------------------------------

  /** The action for a machine: its own id and cluster, the Need's priority, and the grace their
      gap calls for. */
  predicate ActsOn(a: Preemption, u: Shortfall, m: Machine) {
    && a.id == m.id && a.cluster == m.cluster && a.preemptor == u.need.profile.priority
    && a.grace == DrainGrace(u.need.profile.priority, m.assignedPriority)
  }

  lemma {:induction false} ActionFrom(turns: seq<Served>, a: Preemption)
    requires a in ActionsOf(turns)
    ensures exists j, m :: 0 <= j < |turns| && m in turns[j].picks && ActsOn(a, turns[j].u, m)
    decreases |turns|
  {
    var p, picks := turns[0].u.need.profile, turns[0].picks;
    if a in PreemptionsOf(p, picks) {
      var i :| 0 <= i < |picks| && PreemptionsOf(p, picks)[i] == a;
      assert picks[i] in picks && ActsOn(a, turns[0].u, picks[i]);
    } else {
      ActionFrom(turns[1..], a);
      var j, m :| 0 <= j < |turns[1..]| && m in turns[1..][j].picks && ActsOn(a, turns[1..][j].u, m);
      assert turns[1..][j] == turns[j + 1];
    }
  }

  /** Every action preempts, for one of the Needs, a machine that may be preempted for it. */
  lemma {:induction false} ActionMeans(ms: seq<Machine>, unresolved: seq<Shortfall>, o: Options, a: Preemption)
    requires Unique(ms) && forall u | u in ByPriority(unresolved) :: PinsDistinct(u.need.profile)
    requires a in Run(ms, ByPriority(unresolved), o, {}).0
    ensures exists u, m :: u in ByPriority(unresolved) && MayPreempt(ms, u, m) && ActsOn(a, u, m)
  {
    var us := ByPriority(unresolved);
    var turns := Turns(ms, us, o, {});
    RunTurns(ms, us, o, {});
    TurnsOK(ms, us, o, {});
    ActionFrom(turns, a);
    var j, m :| 0 <= j < |turns| && m in turns[j].picks && ActsOn(a, turns[j].u, m);
    assert turns[j].u == us[j] && TurnOK(ms, o, TakenBefore(turns, j, {}), turns[j]);
    assert us[j] in us;
  }

  /** Passed over: parked, or a gang no domain was chosen for. */
  predicate PassedOver(u: Shortfall) {
    u.need.parked || (SameKey(u.need.profile).Some? && u.domain == "")
  }

  /** What is reported of a Need: itself when it was passed over; otherwise, if its picks do not
      cover its deficit, the deficit less what they freed, with the count of them. */
  predicate Reports(t: Served, left: Shortfall) {
    if PassedOver(t.u) then left == t.u
    else
      && !Covers(SumAlloc(t.picks), t.u.deficit) && left.need == t.u.need
      && left.deficit == Sub(t.u.deficit, SumAlloc(t.picks))
      && left.domain == "" && left.acquired == 0 && !left.satisfiable
      && left.victims == |t.picks| && left.freed == SumAlloc(t.picks) && (left.preempted <==> t.picks != [])
  }

  lemma LeftoverReports(ms: seq<Machine>, o: Options, taken: set<MachineId>, t: Served)
    requires TurnOK(ms, o, taken, t)
    ensures Leftover(t.u, t.picks, t.rem).None? <==> !PassedOver(t.u) && Covers(SumAlloc(t.picks), t.u.deficit)
    ensures Leftover(t.u, t.picks, t.rem).Some? ==> Reports(t, Leftover(t.u, t.picks, t.rem).value)
  {
    ResidualZero(t.u.deficit, SumAlloc(t.picks));
  }

  lemma {:induction false} LeftFrom(turns: seq<Served>, x: Shortfall)
    ensures x in LeftOf(turns) <==>
            exists j :: 0 <= j < |turns| && Leftover(turns[j].u, turns[j].picks, turns[j].rem) == Some(x)
    decreases |turns|
  {
    if turns != [] {
      var rest := turns[1..];
      LeftFrom(rest, x);
      forall j | 0 <= j < |rest|
        ensures rest[j] == turns[j + 1]
      {
      }
      if j :| 0 <= j < |turns| && Leftover(turns[j].u, turns[j].picks, turns[j].rem) == Some(x) {
        assert j > 0 ==> rest[j - 1] == turns[j];
      }
    }
  }

  /** What phase 2 leaves: each Need it passed over as it was, each it left short with its exact
      residual, and nothing else. */
  lemma {:induction false} LeftMeans(ms: seq<Machine>, unresolved: seq<Shortfall>, o: Options)
    requires Unique(ms) && forall u | u in ByPriority(unresolved) :: PinsDistinct(u.need.profile)
    ensures var us := ByPriority(unresolved);
            var turns := Turns(ms, us, o, {});
            && |turns| == |us|
            && (forall x | x in Run(ms, us, o, {}).1 :: exists j :: 0 <= j < |us| && Reports(turns[j], x))
            && (forall j | 0 <= j < |us| && (PassedOver(us[j]) || !Covers(SumAlloc(turns[j].picks), us[j].deficit)) ::
                  exists x :: x in Run(ms, us, o, {}).1 && Reports(turns[j], x))
  {
    var us := ByPriority(unresolved);
    var turns := Turns(ms, us, o, {});
    RunTurns(ms, us, o, {});
    TurnsOK(ms, us, o, {});
    forall x | x in LeftOf(turns)
      ensures exists j :: 0 <= j < |us| && Reports(turns[j], x)
    {
      LeftFrom(turns, x);
      var j :| 0 <= j < |turns| && Leftover(turns[j].u, turns[j].picks, turns[j].rem) == Some(x);
      LeftoverReports(ms, o, TakenBefore(turns, j, {}), turns[j]);
    }
    forall j | 0 <= j < |us| && (PassedOver(us[j]) || !Covers(SumAlloc(turns[j].picks), us[j].deficit))
      ensures exists x :: x in LeftOf(turns) && Reports(turns[j], x)
    {
      assert turns[j].u == us[j] && TurnOK(ms, o, TakenBefore(turns, j, {}), turns[j]);
      LeftoverReports(ms, o, TakenBefore(turns, j, {}), turns[j]);
      LeftFrom(turns, Leftover(turns[j].u, turns[j].picks, turns[j].rem).value);
    }
  }
}
