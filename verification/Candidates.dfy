/** The topology-aware candidate searches. Workers search while others commit, so every
    question "could this machine be taken?" is a separate read of the ledger: a search
    is given the answers it got, one per pool position and pass. */
module Candidates {
  import opened Resources
  import opened Fleet
  import opened Views
  import opened Inventory
  import opened Ledger
  import opened Order
  import opened Cycle
  import opened Sequences

  /** Among the first `k` pool machines, those found free that fit the Need and carry the
      value `v` of the key, in pool order. */
  function Free(pool: seq<Machine>, free: seq<bool>, n: Need, key: string, v: string, k: nat): seq<Machine>
    requires k <= |pool| == |free|
  {
    if k == 0 then []
    else Free(pool, free, n, key, v, k - 1) +
         if free[k - 1] && Fits(n, pool[k - 1]) && Lookup(key, pool[k - 1]) == Some(v) then [pool[k - 1]] else []
  }

  function AllFree(pool: seq<Machine>, free: seq<bool>, n: Need, key: string, v: string): seq<Machine>
    requires |pool| == |free|
  {
    Free(pool, free, n, key, v, |pool|)
  }

  predicate Offered(free: seq<bool>, pool: seq<Machine>, n: Need, key: string, v: string, i: nat)
    requires i < |pool| == |free|
  {
    free[i] && Fits(n, pool[i]) && Lookup(key, pool[i]) == Some(v)
  }

  /** These are, in order, the machines at those of the first `k` positions of the pool that hold
      a machine of the domain that fits and was answered to be free. */
  ghost predicate FreeAt(pool: seq<Machine>, free: seq<bool>, n: Need, key: string, v: string, k: nat, at: seq<nat>,
                         ms: seq<Machine>)
    requires k <= |pool| == |free|
  {
    && |at| == |ms|
    && (forall j | 0 <= j < |at| :: at[j] < k && ms[j] == pool[at[j]] && Offered(free, pool, n, key, v, at[j]))
    && (forall i, j | 0 <= i < j < |at| :: at[i] < at[j])
    && (forall i: nat | i < k && Offered(free, pool, n, key, v, i) :: i in at)
  }

  lemma FreeAtNext(pool: seq<Machine>, free: seq<bool>, n: Need, key: string, v: string, k: nat, at: seq<nat>,
                   ms: seq<Machine>)
    requires k < |pool| == |free| && FreeAt(pool, free, n, key, v, k, at, ms)
    ensures !Offered(free, pool, n, key, v, k) ==> FreeAt(pool, free, n, key, v, k + 1, at, ms)
    ensures Offered(free, pool, n, key, v, k) ==> FreeAt(pool, free, n, key, v, k + 1, at + [k], ms + [pool[k]])
  {
    forall i: nat | i < k + 1 && Offered(free, pool, n, key, v, i)
      ensures i in at + [k]
      ensures i < k ==> i in at
    {
      if i == k {
        assert (at + [k])[|at|] == k;
      }
    }
  }

  lemma {:induction false} FreeUpTo(pool: seq<Machine>, free: seq<bool>, n: Need, key: string, v: string, k: nat)
    returns (at: seq<nat>)
    requires k <= |pool| == |free|
    ensures FreeAt(pool, free, n, key, v, k, at, Free(pool, free, n, key, v, k))
    decreases k
  {
    at := [];
    if k > 0 {
      var i, ms := k - 1, Free(pool, free, n, key, v, k - 1);
      at := FreeUpTo(pool, free, n, key, v, i);
      FreeAtNext(pool, free, n, key, v, i, at, ms);
      assert Free(pool, free, n, key, v, k) ==
             if Offered(free, pool, n, key, v, i) then ms + [pool[i]] else ms;
      if Offered(free, pool, n, key, v, k - 1) {
        at := at + [k - 1];
      }
    }
  }

  /** What a domain offers is exactly its free fitting machines, in pool order. */
  lemma AllFreeExactly(pool: seq<Machine>, free: seq<bool>, n: Need, key: string, v: string)
    requires |pool| == |free|
    ensures exists at: seq<nat> :: FreeAt(pool, free, n, key, v, |pool|, at, AllFree(pool, free, n, key, v))
  {
    var at := FreeUpTo(pool, free, n, key, v, |pool|);
    assert FreeAt(pool, free, n, key, v, |pool|, at, AllFree(pool, free, n, key, v));
  }

  lemma FreeIn(pool: seq<Machine>, free: seq<bool>, n: Need, key: string, v: string, k: nat, m: Machine)
    requires k <= |pool| == |free| && m in Free(pool, free, n, key, v, k)
    ensures m in pool && Fits(n, m) && Lookup(key, m) == Some(v)
  {
    if m in Free(pool, free, n, key, v, k - 1) {
      FreeIn(pool, free, n, key, v, k - 1, m);
    } else {
      assert m == pool[k - 1];
    }
  }

  lemma FreeMore(pool: seq<Machine>, free: seq<bool>, n: Need, key: string, v: string, k: nat, l: nat)
    requires k <= l <= |pool| == |free|
    ensures Free(pool, free, n, key, v, k) <= Free(pool, free, n, key, v, l)
  {
    if k < l {
      FreeMore(pool, free, n, key, v, k, l - 1);
    }
  }

  /** The shortest prefix that covers the demand, or everything. */
  function Until(s: seq<Machine>, rem: ResVec): seq<Machine> {
    if s == [] || IsZero(rem) then [] else [s[0]] + Until(s[1..], Sub(rem, Alloc(s[0])))
  }

  lemma UntilCons(h: Machine, t: seq<Machine>, rem: ResVec)
    ensures Until([h] + t, rem) == if IsZero(rem) then [] else [h] + Until(t, Sub(rem, Alloc(h)))
    ensures Sub(rem, SumAlloc([h] + t)) == Sub(Sub(rem, Alloc(h)), SumAlloc(t))
  {
    assert ([h] + t)[1..] == t;
    SubSub(rem, Alloc(h), SumAlloc(t));
  }

  lemma {:induction false} UntilStops(a: seq<Machine>, b: seq<Machine>, rem: ResVec)
    requires IsZero(Sub(rem, SumAlloc(a)))
    ensures Until(a + b, rem) == Until(a, rem)
    decreases |a|
  {
    if a == [] {
      SubNothing(rem);
      assert a + b == b;
    } else {
      var h, t := a[0], a[1..];
      assert a == [h] + t;
      Regroup([h], t, b);
      UntilCons(h, t, rem);
      UntilCons(h, t + b, rem);
      UntilStops(t, b, Sub(rem, Alloc(h)));
    }
  }

  lemma {:induction false} UntilGrows(a: seq<Machine>, m: Machine, rem: ResVec)
    requires Until(a, rem) == a && !IsZero(Sub(rem, SumAlloc(a)))
    ensures Until(a + [m], rem) == a + [m]
    decreases |a|
  {
    if a == [] {
      SubNothing(rem);
      UntilCons(m, [], rem);
      assert a + [m] == [m] + [] == [m];
    } else {
      var h, t := a[0], a[1..];
      assert a == [h] + t;
      UntilCons(h, t, rem);
      Regroup([h], t, [m]);
      UntilCons(h, t + [m], rem);
      assert Until(t, Sub(rem, Alloc(h))) == t;
      UntilGrows(t, m, Sub(rem, Alloc(h)));
    }
  }

  /** A greedy walk over part of the pool: what it kept, and that it goes on. */
  ghost predicate Walking(list: seq<Machine>, deficit: ResVec, rem: ResVec) {
    Until(list, deficit) == list && rem == Sub(deficit, SumAlloc(list)) && !IsZero(rem)
  }

  lemma WalkingStart(deficit: ResVec)
    requires !IsZero(deficit)
    ensures Walking([], deficit, deficit)
  {
    SubNothing(deficit);
  }

  lemma WalkingNext(list: seq<Machine>, m: Machine, deficit: ResVec, rem: ResVec)
    requires Walking(list, deficit, rem)
    ensures Until(list + [m], deficit) == list + [m] && Sub(rem, Alloc(m)) == Sub(deficit, SumAlloc(list + [m]))
  {
    UntilGrows(list, m, deficit);
    SubSub(deficit, SumAlloc(list), Alloc(m));
    SumLast(list, m);
  }

  lemma FreeNext(pool: seq<Machine>, free: seq<bool>, n: Need, key: string, v: string, i: nat)
    requires i < |pool| == |free|
    ensures Free(pool, free, n, key, v, i + 1) ==
            if free[i] && Fits(n, pool[i]) && Lookup(key, pool[i]) == Some(v)
            then Free(pool, free, n, key, v, i) + [pool[i]]
            else Free(pool, free, n, key, v, i)
  {
  }

  lemma Enough(pool: seq<Machine>, free: seq<bool>, n: Need, key: string, v: string, i: nat, deficit: ResVec)
    requires i <= |pool| == |free| && IsZero(Sub(deficit, SumAlloc(Free(pool, free, n, key, v, i))))
    ensures Until(AllFree(pool, free, n, key, v), deficit) == Until(Free(pool, free, n, key, v, i), deficit)
  {
    var some, all := Free(pool, free, n, key, v, i), AllFree(pool, free, n, key, v);
    FreeMore(pool, free, n, key, v, i, |pool|);
    assert all == some + all[|some|..];
    UntilStops(some, all[|some|..], deficit);
  }

  /** Acquisition inside the recorded domain: the domain's free machines that fit, in
      pool order, until they cover the deficit. */
  method FindInDomain(pool: seq<Machine>, free: seq<bool>, n: Need, key: string, domain: string, deficit: ResVec)
    returns (out: seq<Machine>)
    requires |pool| == |free|
    ensures out == Until(AllFree(pool, free, n, key, domain), deficit)
  {
    out := [];
    if IsZero(deficit) {
      return;
    }
    var rem := deficit;
    WalkingStart(deficit);
    for i := 0 to |pool|
      invariant out == Free(pool, free, n, key, domain, i) && Walking(out, deficit, rem)
    {
      var m := pool[i];
      FreeNext(pool, free, n, key, domain, i);
      if free[i] && Fits(n, m) && Lookup(key, m) == Some(domain) {
        WalkingNext(out, m, deficit, rem);
        out := out + [m];
        rem := Sub(rem, Alloc(m));
        if IsZero(rem) {
          Enough(pool, free, n, key, domain, i + 1, deficit);
          return;
        }
      }
    }
  }

  // ---- Without a recorded domain ------------------------------------------

  /** What one domain has to offer: how many free machines, whether they cover the
      deficit, and the price of the first. */
  datatype Offer = Offer(avail: nat, atomic: bool, headPrice: real)

  function OfferOf(ms: seq<Machine>, deficit: ResVec): Offer
    requires ms != []
  {
    Offer(|ms|, Covers(SumAlloc(ms), deficit), ms[0].price)
  }

  /** A domain that covers the deficit first, the cheapest head among those; else the one
      with the most machines, then the cheapest head; ties by name. */
  predicate Beats(a: Offer, va: string, b: Offer, vb: string) {
    if a.atomic != b.atomic then a.atomic
    else if !a.atomic && a.avail != b.avail then a.avail > b.avail
    else if a.headPrice != b.headPrice then a.headPrice < b.headPrice
    else LexLess(va, vb)
  }

  lemma BeatsOrder(a: Offer, va: string, b: Offer, vb: string, c: Offer, vc: string)
    ensures Beats(a, va, b, vb) && Beats(b, vb, c, vc) ==> Beats(a, va, c, vc)
    ensures va != vb ==> Beats(a, va, b, vb) || Beats(b, vb, a, va)
  {
    LexTotal(va, vb);
    if LexLess(va, vb) && LexLess(vb, vc) {
      LexTransitive(va, vb, vc);
    }
  }

  /** The domains of the matching machines, in order of first appearance. */
  method DomainsOf(pool: seq<Machine>, n: Need, key: string) returns (keys: seq<string>)
    ensures Distinct(keys)
    ensures forall v :: v in keys <==> exists m :: m in pool && Matches(n.profile, m) && Lookup(key, m) == Some(v)
  {
    keys := [];
    for i := 0 to |pool|
      invariant Distinct(keys)
      invariant forall v :: v in keys <==>
                  exists j :: 0 <= j < i && Matches(n.profile, pool[j]) && Lookup(key, pool[j]) == Some(v)
    {
      var m := pool[i];
      if Matches(n.profile, m) && Lookup(key, m).Some? && Lookup(key, m).value !in keys {
        keys := keys + [Lookup(key, m).value];
      }
    }
  }

  method FreeRow(pool: seq<Machine>, free: seq<bool>, n: Need, key: string, v: string) returns (row: seq<Machine>)
    requires |pool| == |free|
    ensures row == AllFree(pool, free, n, key, v)
  {
    row := [];
    for i := 0 to |pool|
      invariant row == Free(pool, free, n, key, v, i)
    {
      if free[i] && Fits(n, pool[i]) && Lookup(key, pool[i]) == Some(v) {
        row := row + [pool[i]];
      }
    }
  }

  ghost predicate BestOf(pool: seq<Machine>, free: seq<bool>, n: Need, key: string, deficit: ResVec, keys: seq<string>,
                         v: string)
    requires |pool| == |free|
  {
    var mine := AllFree(pool, free, n, key, v);
    mine != [] &&
    forall u | u in keys && u != v && AllFree(pool, free, n, key, u) != [] ::
      Beats(OfferOf(mine, deficit), v, OfferOf(AllFree(pool, free, n, key, u), deficit), u)
  }

  lemma Contest(pool: seq<Machine>, free: seq<bool>, n: Need, key: string, deficit: ResVec, keys: seq<string>,
                v: string,
                k: string, wins: bool)
    requires |pool| == |free| && BestOf(pool, free, n, key, deficit, keys, v) && k !in keys && v in keys
    requires AllFree(pool, free, n, key, k) != []
    requires wins == Beats(OfferOf(AllFree(pool, free, n, key, k), deficit), k,
                           OfferOf(AllFree(pool, free, n, key, v), deficit), v)
    ensures BestOf(pool, free, n, key, deficit, keys + [k], if wins then k else v)
  {
    var mine := OfferOf(AllFree(pool, free, n, key, k), deficit);
    var other := OfferOf(AllFree(pool, free, n, key, v), deficit);
    BeatsOrder(mine, k, other, v, mine, k);
    forall u | u in keys && AllFree(pool, free, n, key, u) != [] {
      BeatsOrder(mine, k, other, v, OfferOf(AllFree(pool, free, n, key, u), deficit), u);
    }
  }

  /** One more domain against the best so far. */
  method Challenge(pool: seq<Machine>, free: seq<bool>, n: Need, key: string, deficit: ResVec, ghost keys: seq<string>,
                   k: string, best0: Option<string>, held0: Offer)
    returns (best: Option<string>, held: Offer)
    requires |pool| == |free| && k !in keys
    requires best0.None? ==> forall v | v in keys :: AllFree(pool, free, n, key, v) == []
    requires best0.Some? ==> best0.value in keys && BestOf(pool, free, n, key, deficit, keys, best0.value)
    requires best0.Some? ==> held0 == OfferOf(AllFree(pool, free, n, key, best0.value), deficit)
    ensures best.None? ==> forall v | v in keys + [k] :: AllFree(pool, free, n, key, v) == []
    ensures best.Some? ==> best.value in keys + [k] && BestOf(pool, free, n, key, deficit, keys + [k], best.value)
    ensures best.Some? ==> held == OfferOf(AllFree(pool, free, n, key, best.value), deficit)
  {
    best, held := best0, held0;
    var row := FreeRow(pool, free, n, key, k);
    if row != [] {
      var offer := OfferOf(row, deficit);
      if best.None? {
        best, held := Some(k), offer;
      } else {
        Contest(pool, free, n, key, deficit, keys, best.value, k, Beats(offer, k, held, best.value));
        if Beats(offer, k, held, best.value) {
          best, held := Some(k), offer;
        }
      }
    }
  }

  /** The domain has free machines and beats every other that does. */
  ghost predicate BestDomain(pool: seq<Machine>, free: seq<bool>, n: Need, key: string, deficit: ResVec, v: string)
    requires |pool| == |free|
  {
    AllFree(pool, free, n, key, v) != [] &&
    forall u | u != v && AllFree(pool, free, n, key, u) != [] ::
      Beats(OfferOf(AllFree(pool, free, n, key, v), deficit), v, OfferOf(AllFree(pool, free, n, key, u), deficit), u)
  }

  lemma FreeDomain(pool: seq<Machine>, free: seq<bool>, n: Need, key: string, v: string)
    requires |pool| == |free| && AllFree(pool, free, n, key, v) != []
    ensures exists m :: m in pool && Matches(n.profile, m) && Lookup(key, m) == Some(v)
  {
    FreeIn(pool, free, n, key, v, |pool|, AllFree(pool, free, n, key, v)[0]);
  }

  /** The best single domain, if any has a free machine. */
  method BestFree(pool: seq<Machine>, free: seq<bool>, n: Need, key: string, deficit: ResVec)
    returns (best: Option<string>)
    requires |pool| == |free|
    ensures best.None? ==> forall v :: AllFree(pool, free, n, key, v) == []
    ensures best.Some? ==> BestDomain(pool, free, n, key, deficit, best.value)
  {
    var domains := DomainsOf(pool, n, key);
    best := None;
    var held := Offer(0, false, 0.0);
    for i := 0 to |domains|
      invariant best.None? ==> forall v | v in domains[..i] :: AllFree(pool, free, n, key, v) == []
      invariant best.Some? ==> best.value in domains[..i]
      invariant best.Some? ==> BestOf(pool, free, n, key, deficit, domains[..i], best.value)
      invariant best.Some? ==> held == OfferOf(AllFree(pool, free, n, key, best.value), deficit)
    {
      assert domains[..i + 1] == domains[..i] + [domains[i]] && domains[i] !in domains[..i];
      best, held := Challenge(pool, free, n, key, deficit, domains[..i], domains[i], best, held);
    }
    assert domains[..|domains|] == domains;
    forall v | AllFree(pool, free, n, key, v) != []
      ensures v in domains
    {
      FreeDomain(pool, free, n, key, v);
    }
  }

  /** The search for a gang. With a recorded domain everything comes from it. Without one,
      everything comes from the best single domain: chosen by one set of answers, taken
      from by a later one. */
  method FindSame(pool: seq<Machine>, free: seq<bool>, still: seq<bool>, n: Need, st: State, key: string,
                  domain: string, deficit: ResVec)
    returns (out: seq<Machine>, bucket: BucketKey)
    requires |pool| == |free| == |still|
    ensures bucket == BucketKey(st, n.profile, key, bucket.sameValue)
    ensures domain != "" ==> bucket.sameValue == domain && out == Until(AllFree(pool, free, n, key, domain), deficit)
    ensures domain == "" && !IsZero(deficit) && (exists v :: AllFree(pool, free, n, key, v) != []) ==>
              BestDomain(pool, free, n, key, deficit, bucket.sameValue) &&
              out == Until(AllFree(pool, still, n, key, bucket.sameValue), deficit)
    ensures domain == "" && (IsZero(deficit) || forall v :: AllFree(pool, free, n, key, v) == []) ==> out == []
    ensures forall m | m in out :: m in pool && Fits(n, m) && Lookup(key, m) == Some(bucket.sameValue)
  {
    out, bucket := [], BucketKey(st, n.profile, key, domain);
    if IsZero(deficit) {
      return;
    }
    if domain != "" {
      out := FindInDomain(pool, free, n, key, domain, deficit);
      UntilCarries(pool, free, n, key, domain, deficit);
      return;
    }
    var best := BestFree(pool, free, n, key, deficit);
    if best.Some? {
      bucket := BucketKey(st, n.profile, key, best.value);
      out := FindInDomain(pool, still, n, key, best.value, deficit);
      UntilCarries(pool, still, n, key, best.value, deficit);
    }
  }

  lemma UntilIn(s: seq<Machine>, rem: ResVec, m: Machine)
    requires m in Until(s, rem)
    ensures m in s
  {
    if m != s[0] {
      UntilIn(s[1..], Sub(rem, Alloc(s[0])), m);
    }
  }

  lemma UntilCarries(pool: seq<Machine>, free: seq<bool>, n: Need, key: string, v: string, deficit: ResVec)
    requires |pool| == |free|
    ensures forall m | m in Until(AllFree(pool, free, n, key, v), deficit) ::
              m in pool && Fits(n, m) && Lookup(key, m) == Some(v)
  {
    forall m | m in Until(AllFree(pool, free, n, key, v), deficit)
      ensures m in pool && Fits(n, m) && Lookup(key, m) == Some(v)
    {
      UntilIn(AllFree(pool, free, n, key, v), deficit, m);
      FreeIn(pool, free, n, key, v, |pool|, m);
    }
  }

  // ---- Spreading over domains ---------------------------------------------

  /** The machines carrying the value, in order. */
  function Within(ms: seq<Machine>, key: string, v: string): seq<Machine> {
    if ms == [] then []
    else Within(ms[..|ms| - 1], key, v) + if Lookup(key, ms[|ms| - 1]) == Some(v) then [ms[|ms| - 1]] else []
  }

  function CountOf(ms: seq<Machine>, key: string, v: string): nat {
    |Within(ms, key, v)|
  }

  /** Counts over all listed domains differ by at most the skew. */
  predicate Even(ms: seq<Machine>, key: string, domains: seq<string>, skew: nat) {
    forall u, v | u in domains && v in domains :: CountOf(ms, key, u) <= CountOf(ms, key, v) + skew
  }

  /** The domain may take one more machine without leaving the least one behind by more
      than the skew. */
  predicate MayTake(ms: seq<Machine>, key: string, domains: seq<string>, skew: nat, v: string) {
    forall u | u in domains :: CountOf(ms, key, v) < CountOf(ms, key, u) + skew
  }

  /** The rows of the search: for each domain with a free machine, its machines. */
  ghost predicate RowsOf(pool: seq<Machine>, free: seq<bool>, n: Need, key: string, k: nat,
                         rows: map<string, seq<Machine>>)
    requires k <= |pool| == |free|
  {
    forall v :: Cell(rows, v) == Free(pool, free, n, key, v, k)
  }

  predicate KeysOf(keys: seq<string>, rows: map<string, seq<Machine>>) {
    && Distinct(keys) && (forall v | v in keys :: v in rows) && (forall v | v in rows :: v in keys && rows[v] != [])
  }

  /** The domain a machine is filed under, if it is free and fits. */
  function Slot(free: bool, n: Need, key: string, m: Machine): Option<string> {
    if free && Fits(n, m) then Lookup(key, m) else None
  }

  function Filed(rows: map<string, seq<Machine>>, slot: Option<string>, m: Machine): map<string, seq<Machine>> {
    if slot.Some? then rows[slot.value := Cell(rows, slot.value) + [m]] else rows
  }

  method GroupFree(pool: seq<Machine>, free: seq<bool>, n: Need, key: string)
    returns (keys: seq<string>, rows: map<string, seq<Machine>>)
    requires |pool| == |free|
    ensures RowsOf(pool, free, n, key, |pool|, rows) && KeysOf(keys, rows)
  {
    keys, rows := [], map[];
    assert KeysOf(keys, rows);
    assert RowsOf(pool, free, n, key, 0, rows);
    for i := 0 to |pool|
      invariant RowsOf(pool, free, n, key, i, rows) && KeysOf(keys, rows)
    {
      var slot := Slot(free[i], n, key, pool[i]);
      RowsNext(pool, free, n, key, i, rows, slot);
      if slot.Some? {
        KeysNext(keys, rows, slot.value, pool[i]);
        if slot.value !in rows {
          keys := keys + [slot.value];
        }
        rows := rows[slot.value := Cell(rows, slot.value) + [pool[i]]];
      }
    }
  }

  lemma KeysNext(keys: seq<string>, rows: map<string, seq<Machine>>, v: string, m: Machine)
    requires KeysOf(keys, rows)
    ensures KeysOf(if v in rows then keys else keys + [v], rows[v := Cell(rows, v) + [m]])
  {
  }

  lemma SlotFree(pool: seq<Machine>, free: seq<bool>, n: Need, key: string, v: string, i: nat)
    requires i < |pool| == |free|
    ensures Free(pool, free, n, key, v, i + 1) ==
            Free(pool, free, n, key, v, i) + if Slot(free[i], n, key, pool[i]) == Some(v) then [pool[i]] else []
  {
  }

  lemma RowsNext(pool: seq<Machine>, free: seq<bool>, n: Need, key: string, i: nat, rows: map<string, seq<Machine>>,
                 slot: Option<string>)
    requires i < |pool| == |free| && RowsOf(pool, free, n, key, i, rows) && slot == Slot(free[i], n, key, pool[i])
    ensures RowsOf(pool, free, n, key, i + 1, Filed(rows, slot, pool[i]))
  {
    var next := Filed(rows, slot, pool[i]);
    forall u
      ensures Cell(next, u) == Free(pool, free, n, key, u, i + 1)
    {
      SlotFree(pool, free, n, key, u, i);
      assert Cell(rows, u) == Free(pool, free, n, key, u, i);
      assert Cell(rows, u) + [] == Cell(rows, u);
    }
  }

  /** Cheaper head first, ties by domain name. */
  predicate Cheaper(a: Machine, va: string, b: Machine, vb: string) {
    a.price < b.price || (a.price == b.price && LexLess(va, vb))
  }

  lemma CheaperOrder(a: Machine, va: string, b: Machine, vb: string, c: Machine, vc: string)
    ensures Cheaper(a, va, b, vb) && Cheaper(b, vb, c, vc) ==> Cheaper(a, va, c, vc)
    ensures va != vb ==> Cheaper(a, va, b, vb) || Cheaper(b, vb, a, va)
  {
    LexTotal(va, vb);
    if LexLess(va, vb) && LexLess(vb, vc) {
      LexTransitive(va, vb, vc);
    }
  }

  /** How far into each domain's row the search has gone; also its count. */
  predicate Cursors(rows: map<string, seq<Machine>>, counts: map<string, nat>) {
    counts.Keys == rows.Keys && forall v | v in rows :: counts[v] <= |rows[v]|
  }

  predicate Ready(rows: map<string, seq<Machine>>, counts: map<string, nat>, limit: nat, v: string)
    requires Cursors(rows, counts)
  {
    v in rows && counts[v] < |rows[v]| && counts[v] < limit
  }

  method MinCount(keys: seq<string>, rows: map<string, seq<Machine>>, counts: map<string, nat>) returns (least: nat)
    requires KeysOf(keys, rows) && Cursors(rows, counts) && keys != []
    ensures exists v :: v in keys && counts[v] == least
    ensures forall v | v in keys :: least <= counts[v]
  {
    assert keys[0] in keys;
    least := counts[keys[0]];
    for i := 1 to |keys|
      invariant exists v :: v in keys && counts[v] == least
      invariant forall j | 0 <= j < i :: least <= counts[keys[j]]
    {
      assert keys[i] in keys;
      if counts[keys[i]] < least {
        least := counts[keys[i]];
      }
    }
  }

  /** The cheapest next machine among the domains below the limit. */
  method CheapestHead(keys: seq<string>, rows: map<string, seq<Machine>>, counts: map<string, nat>, limit: nat)
    returns (best: Option<string>)
    requires KeysOf(keys, rows) && Cursors(rows, counts)
    ensures best.None? ==> forall v | v in keys :: !Ready(rows, counts, limit, v)
    ensures best.Some? ==> Ready(rows, counts, limit, best.value) && best.value in keys
    ensures best.Some? ==> forall u | u in keys && u != best.value && Ready(rows, counts, limit, u) ::
              Cheaper(rows[best.value][counts[best.value]], best.value, rows[u][counts[u]], u)
  {
    best := None;
    for i := 0 to |keys|
      invariant best.None? ==> forall j | 0 <= j < i :: !Ready(rows, counts, limit, keys[j])
      invariant best.Some? ==> Ready(rows, counts, limit, best.value) && best.value in keys[..i]
      invariant best.Some? ==> forall j | 0 <= j < i && keys[j] != best.value && Ready(rows, counts, limit, keys[j]) ::
                  Cheaper(rows[best.value][counts[best.value]], best.value, rows[keys[j]][counts[keys[j]]], keys[j])
    {
      var k := keys[i];
      assert k in keys && keys[..i + 1] == keys[..i] + [k];
      if Ready(rows, counts, limit, k) {
        var head := rows[k][counts[k]];
        if best.None? {
          best := Some(k);
        } else {
          var was := best.value;
          assert k != was;
          ghost var held := rows[was][counts[was]];
          CheaperOrder(head, k, held, was, held, was);
          forall j | 0 <= j < i && Ready(rows, counts, limit, keys[j]) {
            CheaperOrder(head, k, held, was, rows[keys[j]][counts[keys[j]]], keys[j]);
          }
          if Cheaper(head, k, rows[was][counts[was]], was) {
            best := Some(k);
          }
        }
      }
    }
  }

  /** The output so far is, domain by domain, the front of that domain's row. */
  ghost predicate Fronts(key: string, rows: map<string, seq<Machine>>, counts: map<string, nat>, out: seq<Machine>) {
    Cursors(rows, counts) && forall v | v in rows :: Within(out, key, v) == rows[v][..counts[v]]
  }

  /** Each pick is its domain's next machine, the domain could take one more, and no other
      such domain had a cheaper next machine. */
  ghost predicate PickOK(key: string, keys: seq<string>, rows: map<string, seq<Machine>>, skew: nat, out: seq<Machine>,
                         t: nat)
    requires t < |out|
  {
    exists v :: v in keys && Chosen(key, keys, rows, skew, out[..t], v, out[t])
  }

  predicate Next(key: string, rows: map<string, seq<Machine>>, pre: seq<Machine>, v: string, m: Machine) {
    v in rows && CountOf(pre, key, v) < |rows[v]| && rows[v][CountOf(pre, key, v)] == m
  }

  ghost predicate Chosen(key: string, keys: seq<string>, rows: map<string, seq<Machine>>, skew: nat, pre: seq<Machine>,
                         v: string, m: Machine) {
    && Next(key, rows, pre, v, m) && MayTake(pre, key, keys, skew, v)
    && forall u, x | u in keys && u != v && Next(key, rows, pre, u, x) && MayTake(pre, key, keys, skew, u) ::
         Cheaper(m, v, x, u)
  }

  ghost predicate SpreadOK(key: string, keys: seq<string>, rows: map<string, seq<Machine>>, skew: nat, deficit: ResVec,
                           out: seq<Machine>) {
    && Until(out, deficit) == out
    && (forall t | 0 <= t <= |out| :: Even(out[..t], key, keys, skew))
    && (forall t | 0 <= t < |out| :: PickOK(key, keys, rows, skew, out, t))
  }

  lemma WithinLast(ms: seq<Machine>, m: Machine, key: string, v: string)
    ensures Within(ms + [m], key, v) == Within(ms, key, v) + if Lookup(key, m) == Some(v) then [m] else []
  {
    assert (ms + [m])[..|ms|] == ms;
  }

  lemma EvenNext(pre: seq<Machine>, m: Machine, key: string, keys: seq<string>, skew: nat, v: string)
    requires Even(pre, key, keys, skew) && MayTake(pre, key, keys, skew, v) && Lookup(key, m) == Some(v)
    ensures Even(pre + [m], key, keys, skew)
  {
    forall u, w | u in keys && w in keys
      ensures CountOf(pre + [m], key, u) <= CountOf(pre + [m], key, w) + skew
    {
      WithinLast(pre, m, key, u);
      WithinLast(pre, m, key, w);
    }
  }

  lemma EvenAll(out: seq<Machine>, m: Machine, key: string, keys: seq<string>, skew: nat, v: string)
    requires forall t | 0 <= t <= |out| :: Even(out[..t], key, keys, skew)
    requires MayTake(out, key, keys, skew, v) && Lookup(key, m) == Some(v)
    ensures forall t | 0 <= t <= |out + [m]| :: Even((out + [m])[..t], key, keys, skew)
  {
    var all := out + [m];
    assert out[..|out|] == out;
    EvenNext(out, m, key, keys, skew, v);
    forall t | 0 <= t <= |all|
      ensures Even(all[..t], key, keys, skew)
    {
      if t <= |out| {
        assert all[..t] == out[..t];
      } else {
        assert all[..t] == all;
      }
    }
  }

  lemma PicksAll(key: string, keys: seq<string>, rows: map<string, seq<Machine>>, skew: nat, out: seq<Machine>,
                 v: string,
                 m: Machine)
    requires forall t | 0 <= t < |out| :: PickOK(key, keys, rows, skew, out, t)
    requires v in keys && Chosen(key, keys, rows, skew, out, v, m)
    ensures forall t | 0 <= t < |out + [m]| :: PickOK(key, keys, rows, skew, out + [m], t)
  {
    var all := out + [m];
    forall t | 0 <= t < |all|
      ensures PickOK(key, keys, rows, skew, all, t)
    {
      assert all[..t] == out[..t];
      if t < |out| {
        assert PickOK(key, keys, rows, skew, out, t);
      } else {
        assert out[..t] == out;
      }
    }
  }

  lemma SpreadNext(key: string, keys: seq<string>, rows: map<string, seq<Machine>>, skew: nat, deficit: ResVec,
                   out: seq<Machine>, v: string, m: Machine)
    requires SpreadOK(key, keys, rows, skew, deficit, out) && Until(out + [m], deficit) == out + [m]
    requires v in keys && Chosen(key, keys, rows, skew, out, v, m) && Lookup(key, m) == Some(v)
    ensures SpreadOK(key, keys, rows, skew, deficit, out + [m])
  {
    EvenAll(out, m, key, keys, skew, v);
    PicksAll(key, keys, rows, skew, out, v, m);
  }

  lemma FrontsNext(key: string, rows: map<string, seq<Machine>>, counts: map<string, nat>, out: seq<Machine>, v: string)
    requires Fronts(key, rows, counts, out) && v in rows && counts[v] < |rows[v]|
    requires Lookup(key, rows[v][counts[v]]) == Some(v)
    ensures Fronts(key, rows, counts[v := counts[v] + 1], out + [rows[v][counts[v]]])
  {
    var m := rows[v][counts[v]];
    forall u | u in rows
      ensures Within(out + [m], key, u) == rows[u][..counts[v := counts[v] + 1][u]]
    {
      WithinLast(out, m, key, u);
      assert u == v ==> rows[v][..counts[v] + 1] == rows[v][..counts[v]] + [m];
    }
  }

  /** The limit the search uses is the skew rule. */
  lemma LimitIsSkew(key: string, keys: seq<string>, rows: map<string, seq<Machine>>, counts: map<string, nat>,
                    out: seq<Machine>, least: nat, skew: nat, v: string)
    requires KeysOf(keys, rows) && Fronts(key, rows, counts, out) && v in keys
    requires (exists u :: u in keys && counts[u] == least) && forall u | u in keys :: least <= counts[u]
    ensures counts[v] == CountOf(out, key, v)
    ensures MayTake(out, key, keys, skew, v) <==> counts[v] < least + skew
  {
    forall u | u in keys
      ensures CountOf(out, key, u) == counts[u]
    {
      assert Within(out, key, u) == rows[u][..counts[u]];
    }
  }

  lemma CheapestChosen(key: string, keys: seq<string>, rows: map<string, seq<Machine>>, counts: map<string, nat>,
                       out: seq<Machine>, least: nat, skew: nat, v: string)
    requires KeysOf(keys, rows) && Fronts(key, rows, counts, out)
    requires (exists u :: u in keys && counts[u] == least) && forall u | u in keys :: least <= counts[u]
    requires v in keys && Ready(rows, counts, least + skew, v)
    requires forall u | u in keys && u != v && Ready(rows, counts, least + skew, u) ::
               Cheaper(rows[v][counts[v]], v, rows[u][counts[u]], u)
    ensures Chosen(key, keys, rows, skew, out, v, rows[v][counts[v]])
  {
    LimitIsSkew(key, keys, rows, counts, out, least, skew, v);
    forall u, x | u in keys && u != v && Next(key, rows, out, u, x) && MayTake(out, key, keys, skew, u)
      ensures Cheaper(rows[v][counts[v]], v, x, u)
    {
      LimitIsSkew(key, keys, rows, counts, out, least, skew, u);
    }
  }

  function Unread(keys: seq<string>, rows: map<string, seq<Machine>>, counts: map<string, nat>): int
    requires Cursors(rows, counts) && forall v | v in keys :: v in rows
  {
    if keys == [] then 0 else |rows[keys[0]]| - counts[keys[0]] + Unread(keys[1..], rows, counts)
  }

  lemma UnreadDrops(keys: seq<string>, rows: map<string, seq<Machine>>, counts: map<string, nat>, v: string)
    requires Cursors(rows, counts) && forall u | u in keys :: u in rows
    requires v in rows && counts[v] < |rows[v]|
    ensures Unread(keys, rows, counts) >= 0
    ensures Unread(keys, rows, counts[v := counts[v] + 1]) <= Unread(keys, rows, counts)
    ensures v in keys ==> Unread(keys, rows, counts[v := counts[v] + 1]) < Unread(keys, rows, counts)
  {
    if keys != [] {
      assert keys[0] in keys;
      UnreadDrops(keys[1..], rows, counts, v);
    }
  }

  /** Why a search over domains ended. */
  ghost predicate Exhausted(key: string, keys: seq<string>, rows: map<string, seq<Machine>>, skew: nat,
                            out: seq<Machine>) {
    forall v | v in keys :: (v in rows && CountOf(out, key, v) == |rows[v]|) || !MayTake(out, key, keys, skew, v)
  }

  lemma NothingReady(key: string, keys: seq<string>, rows: map<string, seq<Machine>>, counts: map<string, nat>,
                     out: seq<Machine>, least: nat, skew: nat)
    requires KeysOf(keys, rows) && Fronts(key, rows, counts, out)
    requires (exists u :: u in keys && counts[u] == least) && forall u | u in keys :: least <= counts[u]
    requires forall v | v in keys :: !Ready(rows, counts, least + skew, v)
    ensures Exhausted(key, keys, rows, skew, out)
  {
    forall v | v in keys
      ensures (v in rows && CountOf(out, key, v) == |rows[v]|) || !MayTake(out, key, keys, skew, v)
    {
      LimitIsSkew(key, keys, rows, counts, out, least, skew, v);
    }
  }

  /** One pick: the cheapest next machine that keeps the skew, if there is one. */
  method PickNext(keys: seq<string>, rows: map<string, seq<Machine>>, counts: map<string, nat>, ghost key: string,
                  ghost out: seq<Machine>, skew: nat)
    returns (best: Option<string>)
    requires KeysOf(keys, rows) && Fronts(key, rows, counts, out) && keys != []
    ensures best.None? ==> Exhausted(key, keys, rows, skew, out)
    ensures best.Some? ==> best.value in keys && counts[best.value] < |rows[best.value]|
                           && Chosen(key, keys, rows, skew, out, best.value, rows[best.value][counts[best.value]])
  {
    var least := MinCount(keys, rows, counts);
    best := CheapestHead(keys, rows, counts, least + skew);
    if best.None? {
      NothingReady(key, keys, rows, counts, out, least, skew);
    } else {
      CheapestChosen(key, keys, rows, counts, out, least, skew, best.value);
    }
  }

  /** What a spread search may return: machines in the order of SpreadOK, short of the
      deficit only once every domain is exhausted. */
  ghost predicate SpreadFound(pool: seq<Machine>, free: seq<bool>, n: Need, key: string, skew: nat, deficit: ResVec,
                              out: seq<Machine>)
    requires |pool| == |free|
  {
    exists keys, rows :: SpreadOver(pool, free, n, key, skew, deficit, out, keys, rows)
  }

  ghost predicate SpreadOver(pool: seq<Machine>, free: seq<bool>, n: Need, key: string, skew: nat, deficit: ResVec,
                             out: seq<Machine>, keys: seq<string>, rows: map<string, seq<Machine>>)
    requires |pool| == |free|
  {
    && KeysOf(keys, rows) && RowsOf(pool, free, n, key, |pool|, rows)
    && SpreadOK(key, keys, rows, skew, deficit, out)
    && (IsZero(Sub(deficit, SumAlloc(out))) || Exhausted(key, keys, rows, skew, out))
  }

  /** The spread search. */
  method FindSpread(pool: seq<Machine>, free: seq<bool>, n: Need, key: string, maxSkew: int, deficit: ResVec)
    returns (out: seq<Machine>)
    requires |pool| == |free|
    ensures SpreadFound(pool, free, n, key, if maxSkew < 1 then 1 else maxSkew, deficit, out)
  {
    var skew := if maxSkew < 1 then 1 else maxSkew;
    var domains, byDomain := GroupFree(pool, free, n, key);
    ghost var keys, rows := domains, byDomain;
    out := [];
    SubNothing(deficit);
    if IsZero(deficit) || domains == [] {
      assert SpreadOver(pool, free, n, key, skew, deficit, out, keys, rows);
      return;
    }
    var rem := deficit;
    var counts := map v | v in byDomain :: 0;
    assert Fronts(key, rows, counts, out);
    while !IsZero(rem)
      invariant Fronts(key, rows, counts, out) && SpreadOK(key, keys, rows, skew, deficit, out)
      invariant rem == Sub(deficit, SumAlloc(out))
      decreases Unread(keys, rows, counts)
    {
      var best := PickNext(domains, byDomain, counts, key, out, skew);
      if best.None? {
        assert SpreadOver(pool, free, n, key, skew, deficit, out, keys, rows);
        return;
      }
      var v := best.value;
      var m := byDomain[v][counts[v]];
      RowCarries(pool, free, n, key, rows, v, counts[v]);
      WalkingNext(out, m, deficit, rem);
      SpreadNext(key, keys, rows, skew, deficit, out, v, m);
      FrontsNext(key, rows, counts, out, v);
      UnreadDrops(keys, rows, counts, v);
      out := out + [m];
      counts := counts[v := counts[v] + 1];
      rem := Sub(rem, Alloc(m));
    }
    assert SpreadOver(pool, free, n, key, skew, deficit, out, keys, rows);
  }

  lemma RowOf(pool: seq<Machine>, free: seq<bool>, n: Need, key: string, keys: seq<string>,
                 rows: map<string, seq<Machine>>, v: string)
    requires |pool| == |free| && KeysOf(keys, rows) && RowsOf(pool, free, n, key, |pool|, rows)
    ensures v in keys <==> AllFree(pool, free, n, key, v) != []
    ensures v in keys ==> v in rows && rows[v] == AllFree(pool, free, n, key, v)
  {
    assert Cell(rows, v) == AllFree(pool, free, n, key, v);
  }

  /** At every point of the list, the counts of any two domains that had a free machine
      differ by at most the skew, even if one of them is never used. */
  lemma SpreadEven(pool: seq<Machine>, free: seq<bool>, n: Need, key: string, skew: nat, deficit: ResVec,
                   out: seq<Machine>, t: nat, u: string, v: string)
    requires |pool| == |free| && SpreadFound(pool, free, n, key, skew, deficit, out) && t <= |out|
    requires AllFree(pool, free, n, key, u) != [] && AllFree(pool, free, n, key, v) != []
    ensures CountOf(out[..t], key, u) <= CountOf(out[..t], key, v) + skew
  {
    var keys, rows :| SpreadOver(pool, free, n, key, skew, deficit, out, keys, rows);
    RowOf(pool, free, n, key, keys, rows, u);
    RowOf(pool, free, n, key, keys, rows, v);
    assert Even(out[..t], key, keys, skew);
  }

  /** A search that ends short has used every free machine of a domain, or the domain is
      a full skew ahead of some other. */
  lemma SpreadStops(pool: seq<Machine>, free: seq<bool>, n: Need, key: string, skew: nat, deficit: ResVec,
                    out: seq<Machine>, v: string)
    requires |pool| == |free| && SpreadFound(pool, free, n, key, skew, deficit, out)
    requires !Covers(SumAlloc(out), deficit) && AllFree(pool, free, n, key, v) != []
    ensures CountOf(out, key, v) == |AllFree(pool, free, n, key, v)| ||
            exists u :: AllFree(pool, free, n, key, u) != [] && CountOf(out, key, v) >= CountOf(out, key, u) + skew
  {
    var keys, rows :| SpreadOver(pool, free, n, key, skew, deficit, out, keys, rows);
    ResidualZero(deficit, SumAlloc(out));
    RowOf(pool, free, n, key, keys, rows, v);
    if CountOf(out, key, v) != |rows[v]| {
      var u :| u in keys && CountOf(out, key, v) >= CountOf(out, key, u) + skew;
      RowOf(pool, free, n, key, keys, rows, u);
    }
  }

  lemma RowCarries(pool: seq<Machine>, free: seq<bool>, n: Need, key: string, rows: map<string, seq<Machine>>,
                   v: string,
                   j: nat)
    requires |pool| == |free| && RowsOf(pool, free, n, key, |pool|, rows) && v in rows && j < |rows[v]|
    ensures rows[v][j] in pool && Fits(n, rows[v][j]) && Lookup(key, rows[v][j]) == Some(v)
  {
    assert Cell(rows, v) == Free(pool, free, n, key, v, |pool|);
    FreeIn(pool, free, n, key, v, |pool|, rows[v][j]);
  }

  // ---- What the searches hand to the broker -------------------------------

  /** A gang's search puts forward only what the cycle lets it be offered. */
  lemma SameOffers(env: Env, n: nat, st: State, key: string, out: seq<Machine>, v: string)
    requires Unique(env.machines) && n < |env.needs| && (st == Idle || st == Speculative)
    requires SameKey(env.needs[n].profile) == Some(key) && !env.needs[n].parked
    requires DomainOf(env, n) != "" ==> v == DomainOf(env, n)
    requires forall m | m in out :: m in PoolFor(env, n, st) && Fits(env.needs[n], m) && Lookup(key, m) == Some(v)
    ensures forall id | id in Ids(out) :: OfferableId(env, n, st, id)
  {
    forall id | id in Ids(out)
      ensures OfferableId(env, n, st, id)
    {
      var k :| 0 <= k < |out| && Ids(out)[k] == id;
      assert out[k] in out;
      PoolIn(env.machines, st, env.needs[n].profile, out[k]);
      ByIdIn(env.machines, out[k]);
    }
  }

  lemma RowOfPick(pool: seq<Machine>, free: seq<bool>, n: Need, key: string, keys: seq<string>,
                  rows: map<string, seq<Machine>>, skew: nat, out: seq<Machine>, t: nat)
    requires |pool| == |free| && RowsOf(pool, free, n, key, |pool|, rows)
    requires t < |out| && PickOK(key, keys, rows, skew, out, t)
    ensures out[t] in pool && Fits(n, out[t])
  {
    var v :| v in keys && Chosen(key, keys, rows, skew, out[..t], v, out[t]);
    RowCarries(pool, free, n, key, rows, v, CountOf(out[..t], key, v));
  }

  /** ... and so does a spread search. */
  lemma SpreadOffers(env: Env, n: nat, st: State, key: string, free: seq<bool>, skew: nat, deficit: ResVec,
                     out: seq<Machine>)
    requires Unique(env.machines) && n < |env.needs| && (st == Idle || st == Speculative)
    requires SameKey(env.needs[n].profile).None? && |free| == |PoolFor(env, n, st)|
    requires SpreadFound(PoolFor(env, n, st), free, env.needs[n], key, skew, deficit, out)
    ensures forall id | id in Ids(out) :: OfferableId(env, n, st, id)
  {
    var pool := PoolFor(env, n, st);
    var keys, rows :| SpreadOver(pool, free, env.needs[n], key, skew, deficit, out, keys, rows);
    forall id | id in Ids(out)
      ensures OfferableId(env, n, st, id)
    {
      var t :| 0 <= t < |out| && Ids(out)[t] == id;
      RowOfPick(pool, free, env.needs[n], key, keys, rows, skew, out, t);
      PoolIn(env.machines, st, env.needs[n].profile, out[t]);
      ByIdIn(env.machines, out[t]);
    }
  }

  // ---- What the searches mean ---------------------------------------------

  /** The shortest prefix that covers, or everything. */
  lemma {:induction false} UntilMeans(s: seq<Machine>, rem: ResVec)
    ensures Until(s, rem) <= s
    ensures Until(s, rem) == s || Covers(SumAlloc(Until(s, rem)), rem)
    ensures forall k | 0 <= k < |Until(s, rem)| :: !Covers(SumAlloc(Until(s, rem)[..k]), rem)
    decreases |s|
  {
    NothingCovers(rem);
    if s != [] && !IsZero(rem) {
      var h, t := s[0], s[1..];
      var rest := Until(t, Sub(rem, Alloc(h)));
      assert s == [h] + t;
      UntilMeans(t, Sub(rem, Alloc(h)));
      CoversSplit(h, rest, rem);
      forall k | 0 <= k < |[h] + rest|
        ensures !Covers(SumAlloc(([h] + rest)[..k]), rem)
      {
        ShorterFails(h, rest, rem, k);
      }
    }
  }

  /** The domain a gang without a recorded one is sent to: one that covers the deficit if any
      does, and of those the one whose first machine is cheapest; if none does, one with the
      most free machines, of those the cheapest first machine; then the lesser name. */
  lemma BestDomainMeans(pool: seq<Machine>, free: seq<bool>, n: Need, key: string, deficit: ResVec, v: string,
                        u: string)
    requires |pool| == |free| && BestDomain(pool, free, n, key, deficit, v)
    requires u != v && AllFree(pool, free, n, key, u) != []
    ensures var mine, other := AllFree(pool, free, n, key, v), AllFree(pool, free, n, key, u);
            && mine != []
            && (Covers(SumAlloc(other), deficit) ==> Covers(SumAlloc(mine), deficit))
            && (Covers(SumAlloc(other), deficit) ==> CheaperFirst(mine, v, other, u))
            && (!Covers(SumAlloc(mine), deficit) ==>
                  |mine| > |other| || (|mine| == |other| && CheaperFirst(mine, v, other, u)))
  {
  }

  predicate CheaperFirst(mine: seq<Machine>, v: string, other: seq<Machine>, u: string)
    requires mine != [] && other != []
  {
    mine[0].price < other[0].price || (mine[0].price == other[0].price && LexLess(v, u))
  }

  /** Each pick of a spread search costs no more than the next machine of any other domain that
      could have taken one more. */
  lemma SpreadCheapest(pool: seq<Machine>, free: seq<bool>, n: Need, key: string, skew: nat, deficit: ResVec,
                       out: seq<Machine>, t: nat, u: string)
    requires |pool| == |free| && SpreadFound(pool, free, n, key, skew, deficit, out) && t < |out|
    requires CountOf(out[..t], key, u) < |AllFree(pool, free, n, key, u)|
    requires forall w | AllFree(pool, free, n, key, w) != [] ::
               CountOf(out[..t], key, u) < CountOf(out[..t], key, w) + skew
    ensures out[t].price <= AllFree(pool, free, n, key, u)[CountOf(out[..t], key, u)].price
  {
    var keys, rows :| SpreadOver(pool, free, n, key, skew, deficit, out, keys, rows);
    RowOf(pool, free, n, key, keys, rows, u);
    assert PickOK(key, keys, rows, skew, out, t);
    var v :| v in keys && Chosen(key, keys, rows, skew, out[..t], v, out[t]);
    forall w | w in keys
      ensures CountOf(out[..t], key, u) < CountOf(out[..t], key, w) + skew
    {
      RowOf(pool, free, n, key, keys, rows, w);
    }
    var x := rows[u][CountOf(out[..t], key, u)];
    assert Next(key, rows, out[..t], u, x) && MayTake(out[..t], key, keys, skew, u);
  }
}
