/** The plain candidate search. It looks at the pool twice, one ledger read at a time, while
    other workers commit between its reads. */
module BasicWalk {
  import opened Resources
  import opened Fleet
  import opened Views
  import opened Inventory
  import opened Ledger
  import opened Cycle
  import opened CycleLaws
  import opened Candidates

  /** The worker's reads, each of the ledger as it then was, lead it to put forward `out`. */
  ghost predicate Walks(env: Env, r: Worker, ledgers: seq<Claims>, out: seq<MachineId>)
    requires r.Running? && r.need < |env.needs|
    decreases |ledgers|
  {
    if r.phase.Chosen? then ledgers == [] && out == r.phase.out
    else
      && ledgers != []
      && (r.phase.Pass1? || r.phase.Pass2? || (r.phase.Check2? && r.phase.i < |PoolFor(env, r.need, r.st)|))
      && Walks(env, r.(phase := AfterScan(env, ledgers[0], r)), ledgers[1..], out)
  }

  predicate SeenFree(cs: seq<Claims>, id: MachineId) {
    exists c: Claims :: c in cs && id !in c
  }

  predicate SeenHeld(cs: seq<Claims>, id: MachineId) {
    exists c: Claims :: c in cs && id in c
  }

  predicate SeenLoose(cs: seq<Claims>, id: MachineId, prec: Precedence) {
    exists c: Claims :: c in cs && (id in c ==> Outbid(c[id].precedence, prec))
  }

  predicate SeenFast(cs: seq<Claims>, id: MachineId, prec: Precedence) {
    exists c: Claims :: c in cs && id in c && !Outbid(c[id].precedence, prec)
  }

  /** From position `i` on, `found` are the fitting machines that were seen unclaimed, in pool
      order; every other fitting one was seen claimed. */
  predicate FreeFrom(n: Need, pool: seq<Machine>, i: nat, cs: seq<Claims>, found: seq<Machine>)
    decreases |pool| - i
  {
    if i >= |pool| then found == []
    else
      || (!Fits(n, pool[i]) && FreeFrom(n, pool, i + 1, cs, found))
      || (Fits(n, pool[i]) && SeenHeld(cs, pool[i].id) && FreeFrom(n, pool, i + 1, cs, found))
      || (Fits(n, pool[i]) && SeenFree(cs, pool[i].id) && found != [] && found[0] == pool[i] &&
          FreeFrom(n, pool, i + 1, cs, found[1..]))
  }

  /** From position `i` on, `found` are the fitting machines that were seen claimed, and then
      seen in the hands of a Need that is outbid, in pool order; every other fitting one was
      seen unclaimed, or held fast. */
  predicate LooseFrom(n: Need, pool: seq<Machine>, i: nat, cs: seq<Claims>, prec: Precedence, found: seq<Machine>)
    decreases |pool| - i
  {
    if i >= |pool| then found == []
    else
      || (!Fits(n, pool[i]) && LooseFrom(n, pool, i + 1, cs, prec, found))
      || (Fits(n, pool[i]) && (SeenFree(cs, pool[i].id) || SeenFast(cs, pool[i].id, prec)) &&
          LooseFrom(n, pool, i + 1, cs, prec, found))
      || (Fits(n, pool[i]) && SeenHeld(cs, pool[i].id) && SeenLoose(cs, pool[i].id, prec) && found != [] &&
          found[0] == pool[i] && LooseFrom(n, pool, i + 1, cs, prec, found[1..]))
  }

  // ---- What was not read --------------------------------------------------

  lemma {:induction false} SomeFree(n: Need, pool: seq<Machine>, i: nat, cs: seq<Claims>) returns (found: seq<Machine>)
    requires cs != []
    ensures FreeFrom(n, pool, i, cs, found)
    decreases |pool| - i
  {
    if i >= |pool| {
      found := [];
    } else {
      found := SomeFree(n, pool, i + 1, cs);
      assert cs[0] in cs;
      if Fits(n, pool[i]) && pool[i].id !in cs[0] {
        assert ([pool[i]] + found)[1..] == found;
        found := [pool[i]] + found;
      }
    }
  }

  lemma {:induction false} SomeLoose(n: Need, pool: seq<Machine>, i: nat, cs: seq<Claims>, prec: Precedence)
    returns (found: seq<Machine>)
    requires cs != []
    ensures LooseFrom(n, pool, i, cs, prec, found)
    decreases |pool| - i
  {
    if i >= |pool| {
      found := [];
    } else {
      found := SomeLoose(n, pool, i + 1, cs, prec);
      assert cs[0] in cs;
      if Fits(n, pool[i]) && pool[i].id in cs[0] && Outbid(cs[0][pool[i].id].precedence, prec) {
        assert ([pool[i]] + found)[1..] == found;
        found := [pool[i]] + found;
      }
    }
  }

  // ---- The walk -----------------------------------------------------------

  lemma UntilHead(m: Machine, rest: seq<Machine>, rem: ResVec)
    requires !IsZero(rem)
    ensures Until([m] + rest, rem) == [m] + Until(rest, Sub(rem, Alloc(m)))
  {
    UntilCons(m, rest, rem);
  }

  lemma IdsMore(took: seq<Machine>, m: Machine, rest: seq<Machine>)
    ensures Ids(took + [m]) == Ids(took) + [m.id]
    ensures (took + [m]) + rest == took + ([m] + rest)
  {
  }

  predicate Within(ledgers: seq<Claims>, cs: seq<Claims>) {
    forall c | c in ledgers :: c in cs
  }

  lemma WithinTail(ledgers: seq<Claims>, cs: seq<Claims>)
    requires ledgers != [] && Within(ledgers, cs)
    ensures ledgers[0] in cs && Within(ledgers[1..], cs) && cs != []
  {
  }

  lemma TakeableOutbid(c: Claims, id: MachineId, prec: Precedence)
    ensures Takeable(c, id, prec) <==> (id in c ==> Outbid(c[id].precedence, prec))
  {
  }

  /** The second pass, from position `i`, having taken `took`. */
  lemma {:induction false} LooseWalk(env: Env, r: Worker, ledgers: seq<Claims>, out: seq<MachineId>, took: seq<Machine>,
                                     cs: seq<Claims>)
    returns (found: seq<Machine>)
    requires r.Running? && r.need < |env.needs| && (r.phase.Pass2? || r.phase.Check2?)
    requires Walks(env, r, ledgers, out) && Within(ledgers, cs)
    requires r.phase.out == Ids(took) && !IsZero(r.phase.rem)
    requires r.phase.Check2? ==> r.phase.i < |PoolFor(env, r.need, r.st)| &&
                                 SeenHeld(cs, PoolFor(env, r.need, r.st)[r.phase.i].id)
    ensures LooseFrom(env.needs[r.need], PoolFor(env, r.need, r.st), r.phase.i, cs,
                      PrecedenceOf(env.needs[r.need].profile), found)
    ensures out == Ids(took + Until(found, r.phase.rem))
    decreases |ledgers|
  {
    var n, pool := env.needs[r.need], PoolFor(env, r.need, r.st);
    var prec, i, rem := PrecedenceOf(n.profile), r.phase.i, r.phase.rem;
    var c := ledgers[0];
    var r' := r.(phase := AfterScan(env, c, r));
    WithinTail(ledgers, cs);
    if r.phase.Pass2? {
      if i >= |pool| {
        found := [];
        assert took + [] == took;
      } else if pool[i].id !in c {
        found := LooseWalk(env, r', ledgers[1..], out, took, cs);
      } else {
        found := LooseWalk(env, r', ledgers[1..], out, took, cs);
      }
    } else {
      var m := pool[i];
      TakeableOutbid(c, m.id, prec);
      if !Takeable(c, m.id, prec) || !Fits(n, m) {
        found := LooseWalk(env, r', ledgers[1..], out, took, cs);
      } else {
        found := LooseKeep(env, r, ledgers, out, took, cs);
      }
    }
  }

  lemma {:induction false} LooseKeep(env: Env, r: Worker, ledgers: seq<Claims>, out: seq<MachineId>, took: seq<Machine>,
                                     cs: seq<Claims>)
    returns (found: seq<Machine>)
    requires r.Running? && r.need < |env.needs| && r.phase.Check2? && r.phase.i < |PoolFor(env, r.need, r.st)|
    requires Walks(env, r, ledgers, out) && Within(ledgers, cs) && ledgers != []
    requires r.phase.out == Ids(took) && !IsZero(r.phase.rem)
    requires var m := PoolFor(env, r.need, r.st)[r.phase.i];
             && SeenHeld(cs, m.id) && Fits(env.needs[r.need], m)
             && Takeable(ledgers[0], m.id, PrecedenceOf(env.needs[r.need].profile))
    ensures LooseFrom(env.needs[r.need], PoolFor(env, r.need, r.st), r.phase.i, cs,
                      PrecedenceOf(env.needs[r.need].profile), found)
    ensures out == Ids(took + Until(found, r.phase.rem))
    decreases |ledgers|, 0
  {
    var n, pool := env.needs[r.need], PoolFor(env, r.need, r.st);
    var prec, i, rem := PrecedenceOf(n.profile), r.phase.i, r.phase.rem;
    var m, left := pool[i], Sub(rem, Alloc(pool[i]));
    var r' := r.(phase := AfterScan(env, ledgers[0], r));
    WithinTail(ledgers, cs);
    TakeableOutbid(ledgers[0], m.id, prec);
    var rest;
    if IsZero(left) {
      rest := SomeLoose(n, pool, i + 1, cs, prec);
    } else {
      IdsMore(took, m, []);
      rest := LooseWalk(env, r', ledgers[1..], out, took + [m], cs);
    }
    found := [m] + rest;
    assert found[1..] == rest;
    UntilHead(m, rest, rem);
    IdsMore(took, m, Until(rest, left));
    assert IsZero(left) ==> (took + [m]) + [] == took + [m];
  }

  /** The first pass, from position `i`, having taken `took`. */
  lemma {:induction false} FreeWalk(env: Env, r: Worker, ledgers: seq<Claims>, out: seq<MachineId>, took: seq<Machine>,
                                    cs: seq<Claims>)
    returns (first: seq<Machine>, second: seq<Machine>)
    requires r.Running? && r.need < |env.needs| && r.phase.Pass1?
    requires Walks(env, r, ledgers, out) && Within(ledgers, cs)
    requires r.phase.out == Ids(took) && !IsZero(r.phase.rem)
    ensures FreeFrom(env.needs[r.need], PoolFor(env, r.need, r.st), r.phase.i, cs, first)
    ensures LooseFrom(env.needs[r.need], PoolFor(env, r.need, r.st), 0, cs,
                      PrecedenceOf(env.needs[r.need].profile), second)
    ensures out == Ids(took + Until(first + second, r.phase.rem))
    decreases |ledgers|
  {
    var n, pool := env.needs[r.need], PoolFor(env, r.need, r.st);
    var i, rem := r.phase.i, r.phase.rem;
    var c := ledgers[0];
    var r' := r.(phase := AfterScan(env, c, r));
    WithinTail(ledgers, cs);
    if i >= |pool| {
      second := LooseWalk(env, r', ledgers[1..], out, took, cs);
      first := [];
      assert [] + second == second;
    } else if pool[i].id in c || !Fits(n, pool[i]) {
      first, second := FreeWalk(env, r', ledgers[1..], out, took, cs);
    } else {
      first, second := FreeKeep(env, r, ledgers, out, took, cs);
    }
  }

  lemma {:induction false} FreeKeep(env: Env, r: Worker, ledgers: seq<Claims>, out: seq<MachineId>, took: seq<Machine>,
                                    cs: seq<Claims>)
    returns (first: seq<Machine>, second: seq<Machine>)
    requires r.Running? && r.need < |env.needs| && r.phase.Pass1? && r.phase.i < |PoolFor(env, r.need, r.st)|
    requires Walks(env, r, ledgers, out) && Within(ledgers, cs) && ledgers != []
    requires r.phase.out == Ids(took) && !IsZero(r.phase.rem)
    requires var m := PoolFor(env, r.need, r.st)[r.phase.i]; m.id !in ledgers[0] && Fits(env.needs[r.need], m)
    ensures FreeFrom(env.needs[r.need], PoolFor(env, r.need, r.st), r.phase.i, cs, first)
    ensures LooseFrom(env.needs[r.need], PoolFor(env, r.need, r.st), 0, cs,
                      PrecedenceOf(env.needs[r.need].profile), second)
    ensures out == Ids(took + Until(first + second, r.phase.rem))
    decreases |ledgers|, 0
  {
    var n, pool := env.needs[r.need], PoolFor(env, r.need, r.st);
    var prec, i, rem := PrecedenceOf(n.profile), r.phase.i, r.phase.rem;
    var m, left := pool[i], Sub(rem, Alloc(pool[i]));
    var r' := r.(phase := AfterScan(env, ledgers[0], r));
    WithinTail(ledgers, cs);
    var rest;
    if IsZero(left) {
      rest := SomeFree(n, pool, i + 1, cs);
      second := SomeLoose(n, pool, 0, cs, prec);
    } else {
      IdsMore(took, m, []);
      rest, second := FreeWalk(env, r', ledgers[1..], out, took + [m], cs);
    }
    first := [m] + rest;
    FreeTakes(n, pool, i, ledgers[0], cs, rest);
    TakenThenRest(took, m, first, rest, second, rem);
    assert IsZero(left) ==> (took + [m]) + [] == took + [m];
  }

  lemma FreeTakes(n: Need, pool: seq<Machine>, i: nat, c: Claims, cs: seq<Claims>, rest: seq<Machine>)
    requires i < |pool| && Fits(n, pool[i]) && c in cs && pool[i].id !in c && FreeFrom(n, pool, i + 1, cs, rest)
    ensures FreeFrom(n, pool, i, cs, [pool[i]] + rest)
  {
    assert ([pool[i]] + rest)[1..] == rest;
  }

  lemma TakenThenRest(took: seq<Machine>, m: Machine, first: seq<Machine>, rest: seq<Machine>, second: seq<Machine>,
                      rem: ResVec)
    requires first == [m] + rest && !IsZero(rem)
    ensures took + Until(first + second, rem) == (took + [m]) + Until(rest + second, Sub(rem, Alloc(m)))
  {
    assert first + second == [m] + (rest + second);
    UntilHead(m, rest + second, rem);
    IdsMore(took, m, Until(rest + second, Sub(rem, Alloc(m))));
  }

  /** What a plain Need's search puts forward, whatever the others commit meanwhile: the
      shortest list that covers the deficit, or everything, of the fitting machines found
      unclaimed, cheapest first, followed by those found held by a Need that is outbid. */
  lemma {:induction false} BasicTakes(env: Env, r: Worker, ledgers: seq<Claims>, out: seq<MachineId>)
    returns (first: seq<Machine>, second: seq<Machine>)
    requires r.Running? && r.need < |env.needs| && r.phase.Pass1? && r.phase.i == 0 && r.phase.out == []
    requires Walks(env, r, ledgers, out) && !IsZero(r.phase.rem)
    ensures FreeFrom(env.needs[r.need], PoolFor(env, r.need, r.st), 0, ledgers, first)
    ensures LooseFrom(env.needs[r.need], PoolFor(env, r.need, r.st), 0, ledgers,
                      PrecedenceOf(env.needs[r.need].profile), second)
    ensures out == Ids(Until(first + second, r.phase.rem))
  {
    first, second := FreeWalk(env, r, ledgers, out, [], ledgers);
    assert [] + Until(first + second, r.phase.rem) == Until(first + second, r.phase.rem);
  }
}
