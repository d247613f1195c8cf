/** The single-domain choice for a Same Need: a lexicographic argmax over the
    candidate domains, computed in one pass. */
module SameBucket {
  import opened Order

  /** One domain's candidate supply: how many machines, and the integer vectors of its
      joint total, its creditable part and the gang's own part. */
  datatype Bucket = Bucket(value: string, count: nat, total: seq<nat>, cred: seq<nat>, own: seq<nat>)

  function At(v: seq<nat>, i: nat): nat {
    if i < |v| then v[i] else 0
  }

  predicate VecCovers(have: seq<nat>, want: seq<nat>) {
    forall i | 0 <= i < |want| && want[i] > 0 :: At(have, i) >= want[i]
  }

  function Ratio(have: nat, want: nat, capped: bool): real
    requires want > 0
  {
    var r := have as real / want as real;
    if capped && r > 1.0 then 1.0 else r
  }

  /** The contribution of the first k dimensions to a score. */
  function ScoreUpTo(total: seq<nat>, deficit: seq<nat>, capped: bool, k: nat): real
    requires k <= |deficit|
  {
    if k == 0 then 0.0
    else ScoreUpTo(total, deficit, capped, k - 1) +
         if deficit[k - 1] == 0 then 0.0 else Ratio(At(total, k - 1), deficit[k - 1], capped)
  }

  function Score(total: seq<nat>, deficit: seq<nat>, capped: bool): real {
    ScoreUpTo(total, deficit, capped, |deficit|)
  }

  method ComputeScore(total: seq<nat>, deficit: seq<nat>, capped: bool) returns (score: real)
    ensures score == Score(total, deficit, capped)
  {
    score := 0.0;
    for i := 0 to |deficit|
      invariant score == ScoreUpTo(total, deficit, capped, i)
    {
      if deficit[i] > 0 {
        var ratio := At(total, i) as real / deficit[i] as real;
        if capped && ratio > 1.0 {
          ratio := 1.0;
        }
        score := score + ratio;
      }
    }
  }

  /** A domain as the rule sees it. */
  datatype Standing = Standing(sat: bool, score: real, cred: real, own: real, count: nat, value: string)

  function StandingOf(b: Bucket, deficit: seq<nat>): Standing {
    var sat := VecCovers(b.total, deficit);
    Standing(sat, Score(b.total, deficit, !sat), Score(b.cred, deficit, true), Score(b.own, deficit, true),
             b.count, b.value)
  }

  /** The rule. A satisfiable domain first; among those the greatest creditable
      coverage, then the gang's own, then the smallest total; among unsatisfiable ones
      the greatest coverage, then creditable coverage; then count; then the value. */
  predicate Outranks(a: Standing, b: Standing) {
    if a.sat != b.sat then a.sat
    else if a.sat then
      a.cred > b.cred ||
      (a.cred == b.cred && (a.own > b.own ||
        (a.own == b.own && (a.score < b.score ||
          (a.score == b.score && Ties(a, b))))))
    else
      a.score > b.score ||
      (a.score == b.score && (a.cred > b.cred || (a.cred == b.cred && Ties(a, b))))
  }

  predicate Ties(a: Standing, b: Standing) {
    a.count > b.count || (a.count == b.count && LexLess(a.value, b.value))
  }

  lemma OutranksTransitive(a: Standing, b: Standing, c: Standing)
    requires Outranks(a, b) && Outranks(b, c)
    ensures Outranks(a, c)
  {
    if LexLess(a.value, b.value) && LexLess(b.value, c.value) {
      LexTransitive(a.value, b.value, c.value);
    }
  }

  lemma OutranksTotal(a: Standing, b: Standing)
    ensures !Outranks(a, a)
    ensures a.value != b.value ==> Outranks(a, b) || Outranks(b, a)
    ensures !(Outranks(a, b) && Outranks(b, a))
  {
    LexIrreflexive(a.value);
    LexTotal(a.value, b.value);
    if Outranks(a, b) && Outranks(b, a) {
      OutranksTransitive(a, b, a);
    }
  }

  predicate DistinctValues(buckets: seq<Bucket>) {
    forall i, j | 0 <= i < j < |buckets| :: buckets[i].value != buckets[j].value
  }

  /** Index `best` holds candidates and outranks every other domain that does. */
  predicate IsBestAt(buckets: seq<Bucket>, deficit: seq<nat>, best: nat) {
    && best < |buckets| && buckets[best].count > 0
    && forall j | 0 <= j < |buckets| && j != best && buckets[j].count > 0 ::
         Outranks(StandingOf(buckets[best], deficit), StandingOf(buckets[j], deficit))
  }

  method ChooseSameBucket(buckets: seq<Bucket>, deficit: seq<nat>) returns (best: int)
    requires DistinctValues(buckets)
    ensures best == -1 <==> forall b | b in buckets :: b.count == 0
    ensures best != -1 ==> best >= 0 && IsBestAt(buckets, deficit, best)
  {
    best := -1;
    var bestSat, bestScore, bestCred, bestOwn := false, 0.0, 0.0, 0.0;
    for i := 0 to |buckets|
      invariant -1 <= best < i
      invariant best == -1 ==> forall k | 0 <= k < i :: buckets[k].count == 0
      invariant best != -1 ==> IsBestAt(buckets[..i], deficit, best)
      invariant best != -1 ==> StandingOf(buckets[best], deficit) ==
                               Standing(bestSat, bestScore, bestCred, bestOwn, buckets[best].count, buckets[best].value)
    {
      var b := buckets[i];
      if b.count > 0 {
        var sat := VecCovers(b.total, deficit);
        var score := ComputeScore(b.total, deficit, !sat);
        var cred := ComputeScore(b.cred, deficit, true);
        var own := ComputeScore(b.own, deficit, true);
        var better :=
          if best < 0 then true
          else if sat != bestSat then sat
          else if sat && cred != bestCred then cred > bestCred
          else if sat && own != bestOwn then own > bestOwn
          else if score != bestScore then (if sat then score < bestScore else score > bestScore)
          else if cred != bestCred then cred > bestCred
          else if b.count != buckets[best].count then b.count > buckets[best].count
          else LexLess(b.value, buckets[best].value);
        if best >= 0 {
          Challenge(buckets, deficit, i, best, better);
        }
        if better {
          best, bestSat, bestScore, bestCred, bestOwn := i, sat, score, cred, own;
        }
      }
    }
    assert buckets[..|buckets|] == buckets;
    if best == -1 {
      forall b | b in buckets
        ensures b.count == 0
      {
        var k :| 0 <= k < |buckets| && buckets[k] == b;
      }
    }
  }

  /** One challenger against the best so far. */
  lemma Challenge(buckets: seq<Bucket>, deficit: seq<nat>, i: nat, best: nat, better: bool)
    requires DistinctValues(buckets) && best < i < |buckets| && buckets[i].count > 0
    requires IsBestAt(buckets[..i], deficit, best)
    requires better == Outranks(StandingOf(buckets[i], deficit), StandingOf(buckets[best], deficit))
    ensures IsBestAt(buckets[..i + 1], deficit, if better then i else best)
  {
    var now := buckets[..i + 1];
    var champion := if better then i else best;
    forall j | 0 <= j < |now| && j != champion && now[j].count > 0
      ensures Outranks(StandingOf(now[champion], deficit), StandingOf(now[j], deficit))
    {
      if j < i && j != best {
        assert buckets[..i][j] == now[j];
        if better {
          OutranksTransitive(StandingOf(buckets[i], deficit), StandingOf(buckets[best], deficit),
                             StandingOf(buckets[j], deficit));
        }
      } else {
        OutranksTotal(StandingOf(buckets[i], deficit), StandingOf(buckets[best], deficit));
      }
    }
  }

  /** The chosen domain does not depend on the order the buckets come in. */
  lemma OrderIndependent(a: seq<Bucket>, b: seq<Bucket>, deficit: seq<nat>, i: nat, j: nat)
    requires forall x: Bucket :: x.count > 0 ==> (x in a <==> x in b)
    requires IsBestAt(a, deficit, i) && IsBestAt(b, deficit, j)
    ensures a[i] == b[j]
  {
    if a[i] != b[j] {
      assert a[i] in b && b[j] in a;
      var k :| 0 <= k < |b| && b[k] == a[i];
      var l :| 0 <= l < |a| && a[l] == b[j];
      OutranksTotal(StandingOf(a[i], deficit), StandingOf(b[j], deficit));
    }
  }

  lemma CappedRatio(have: nat, want: nat)
    requires want > 0
    ensures Ratio(have, want, true) <= 1.0
    ensures have >= want <==> Ratio(have, want, true) == 1.0
  {
    Quotient(have as real, want as real);
  }

  lemma Quotient(h: real, w: real)
    requires w > 0.0
    ensures h >= w <==> h / w >= 1.0
  {
    var q := h / w;
    assert q * w == h;
    if q >= 1.0 {
      assert (q - 1.0) * w >= 0.0;
    } else {
      assert (1.0 - q) * w > 0.0;
    }
  }
}
