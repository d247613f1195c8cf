/** The domain choice in terms of named resources: what the interned computation means,
    free of the order in which resource names were interned and of bucket order. */
module SameChoice {
  import opened Fleet
  import opened Resources
  import opened SameBucket
  import opened SameSupply
  import opened Sequences

  /** One domain's supply: machine count, joint total, creditable part, gang's own part. */
  datatype Stat = Stat(count: nat, total: ResVec, cred: ResVec, own: ResVec)

  function Term(total: ResVec, deficit: ResVec, capped: bool, d: string): real {
    if Qty(deficit, d) == 0 then 0.0 else Ratio(Qty(total, d), Qty(deficit, d), capped)
  }

  ghost function SumTerms(names: set<string>, total: ResVec, deficit: ResVec, capped: bool): real {
    if names == {} then 0.0
    else
      var d :| d in names;
      Term(total, deficit, capped, d) + SumTerms(names - {d}, total, deficit, capped)
  }

  function Positive(v: ResVec): set<string> {
    set d | d in v && v[d] > 0
  }

  ghost function NamedScore(total: ResVec, deficit: ResVec, capped: bool): real {
    SumTerms(Positive(deficit), total, deficit, capped)
  }

  /** The sum does not depend on the order its terms are taken in. */
  lemma {:induction false} SumTermsAny(names: set<string>, total: ResVec, deficit: ResVec, capped: bool, e: string)
    requires e in names
    ensures SumTerms(names, total, deficit, capped) ==
            Term(total, deficit, capped, e) + SumTerms(names - {e}, total, deficit, capped)
    decreases names
  {
    var d :| d in names && SumTerms(names, total, deficit, capped) ==
                           Term(total, deficit, capped, d) + SumTerms(names - {d}, total, deficit, capped);
    if d != e {
      SumTermsAny(names - {d}, total, deficit, capped, e);
      SumTermsAny(names - {e}, total, deficit, capped, d);
      assert names - {d} - {e} == names - {e} - {d};
    }
  }

  function PositiveUpTo(names: seq<string>, deficit: ResVec, k: nat): set<string>
    requires k <= |names|
  {
    if k == 0 then {}
    else PositiveUpTo(names, deficit, k - 1) + if Qty(deficit, names[k - 1]) > 0 then {names[k - 1]} else {}
  }

  lemma PositiveUpToIn(names: seq<string>, deficit: ResVec, k: nat, d: string)
    requires k <= |names|
    ensures d in PositiveUpTo(names, deficit, k) <==> d in names[..k] && Qty(deficit, d) > 0
  {
    if k > 0 {
      PositiveUpToIn(names, deficit, k - 1, d);
      assert names[..k] == names[..k - 1] + [names[k - 1]];
    }
  }

  lemma {:induction false} ScorePrefix(names: seq<string>, t: seq<nat>, total: ResVec, w: seq<nat>, deficit: ResVec,
                                       capped: bool, k: nat)
    requires Distinct(names) && Denotes(names, t, total) && Denotes(names, w, deficit) && k <= |w|
    ensures ScoreUpTo(t, w, capped, k) == SumTerms(PositiveUpTo(names, deficit, k), total, deficit, capped)
  {
    if k > 0 {
      ScorePrefix(names, t, total, w, deficit, capped, k - 1);
      var d := names[k - 1];
      var before := PositiveUpTo(names, deficit, k - 1);
      assert Qty(deficit, d) == w[k - 1] && Qty(total, d) == At(t, k - 1);
      if w[k - 1] > 0 {
        PositiveUpToIn(names, deficit, k - 1, d);
        assert d !in before;
        SumTermsAny(before + {d}, total, deficit, capped, d);
        assert before + {d} - {d} == before;
        assert PositiveUpTo(names, deficit, k) == before + {d};
      } else {
        assert PositiveUpTo(names, deficit, k) == before;
      }
    }
  }

  /** The interned score is the named one, whatever order the names were interned in. */
  lemma ScoreNamed(names: seq<string>, t: seq<nat>, total: ResVec, w: seq<nat>, deficit: ResVec, capped: bool)
    requires Distinct(names) && Denotes(names, t, total) && Denotes(names, w, deficit)
    ensures Score(t, w, capped) == NamedScore(total, deficit, capped)
  {
    ScorePrefix(names, t, total, w, deficit, capped, |w|);
    forall d
      ensures d in PositiveUpTo(names, deficit, |w|) <==> d in Positive(deficit)
    {
      PositiveUpToIn(names, deficit, |w|, d);
      if d in Positive(deficit) {
        var i :| 0 <= i < |names| && names[i] == d;
        assert At(w, i) > 0;
        assert names[..|w|][i] == d;
      }
    }
    assert PositiveUpTo(names, deficit, |w|) == Positive(deficit);
  }

  ghost function StandingAs(v: string, s: Stat, deficit: ResVec): Standing {
    var sat := Covers(s.total, deficit);
    Standing(sat, NamedScore(s.total, deficit, !sat), NamedScore(s.cred, deficit, true),
             NamedScore(s.own, deficit, true), s.count, v)
  }

  /** The interned bucket stands for the domain's statistics. */
  ghost predicate Stands(names: seq<string>, b: Bucket, s: Stat) {
    && b.count == s.count
    && Denotes(names, b.total, s.total) && Denotes(names, b.cred, s.cred) && Denotes(names, b.own, s.own)
  }

  lemma StandingNamed(names: seq<string>, b: Bucket, s: Stat, w: seq<nat>, deficit: ResVec)
    requires Distinct(names) && Stands(names, b, s) && Denotes(names, w, deficit)
    ensures StandingOf(b, w) == StandingAs(b.value, s, deficit)
  {
    CoversRefines(names, b.total, s.total, w, deficit);
    ScoreNamed(names, b.total, s.total, w, deficit, !VecCovers(b.total, w));
    ScoreNamed(names, b.cred, s.cred, w, deficit, true);
    ScoreNamed(names, b.own, s.own, w, deficit, true);
  }

  /** `v` is the domain the rule picks among the listed ones. */
  ghost predicate IsBest(stats: map<string, Stat>, deficit: ResVec, v: string) {
    && v in stats && stats[v].count > 0
    && forall u | u in stats && u != v && stats[u].count > 0 ::
         Outranks(StandingAs(v, stats[v], deficit), StandingAs(u, stats[u], deficit))
  }

  lemma BestUnique(stats: map<string, Stat>, deficit: ResVec, u: string, v: string)
    requires IsBest(stats, deficit, u) && IsBest(stats, deficit, v)
    ensures u == v
  {
    OutranksTotal(StandingAs(u, stats[u], deficit), StandingAs(v, stats[v], deficit));
  }

  ghost function Choice(stats: map<string, Stat>, deficit: ResVec): Option<string> {
    if exists v :: IsBest(stats, deficit, v) then
      var v :| IsBest(stats, deficit, v);
      Some(v)
    else None
  }

  lemma ChoiceIs(stats: map<string, Stat>, deficit: ResVec, v: string)
    requires IsBest(stats, deficit, v)
    ensures Choice(stats, deficit) == Some(v)
  {
    var u := Choice(stats, deficit).value;
    BestUnique(stats, deficit, u, v);
  }

  /** The bucket list represents the statistics: one bucket a domain. */
  ghost predicate Lists(names: seq<string>, buckets: seq<Bucket>, stats: map<string, Stat>) {
    && DistinctValues(buckets)
    && (forall b | b in buckets :: b.value in stats && Stands(names, b, stats[b.value]))
    && (forall v | v in stats && stats[v].count > 0 :: exists b :: b in buckets && b.value == v)
  }

  /** The one-pass choice over interned buckets, listed in any order, is the choice the
      rule makes over the named supply of the domains. */
  lemma ChoiceRefined(names: seq<string>, buckets: seq<Bucket>, stats: map<string, Stat>, w: seq<nat>, deficit: ResVec,
                      best: int)
    requires Distinct(names) && Lists(names, buckets, stats) && Denotes(names, w, deficit)
    requires best == -1 <==> forall b | b in buckets :: b.count == 0
    requires best != -1 ==> best >= 0 && IsBestAt(buckets, w, best)
    ensures Choice(stats, deficit) == if best == -1 then None else Some(buckets[best].value)
  {
    if best == -1 {
      forall v | v in stats
        ensures stats[v].count == 0
      {
        assert stats[v].count > 0 ==> exists b :: b in buckets && b.value == v;
      }
    } else {
      var v := buckets[best].value;
      assert buckets[best] in buckets;
      StandingNamed(names, buckets[best], stats[v], w, deficit);
      forall u | u in stats && u != v && stats[u].count > 0
        ensures Outranks(StandingAs(v, stats[v], deficit), StandingAs(u, stats[u], deficit))
      {
        var b :| b in buckets && b.value == u;
        var j :| 0 <= j < |buckets| && buckets[j] == b;
        StandingNamed(names, b, stats[u], w, deficit);
      }
      ChoiceIs(stats, deficit, v);
    }
  }

  lemma {:induction false} NamedCapped(names: set<string>, have: ResVec, full: ResVec, deficit: ResVec)
    requires Covers(full, deficit) && names <= Positive(deficit)
    ensures SumTerms(names, have, deficit, true) <= SumTerms(names, full, deficit, true)
    ensures (exists d :: d in names && Qty(have, d) < Qty(deficit, d)) ==>
              SumTerms(names, have, deficit, true) < SumTerms(names, full, deficit, true)
    decreases names
  {
    if names != {} {
      var d :| d in names;
      SumTermsAny(names, have, deficit, true, d);
      SumTermsAny(names, full, deficit, true, d);
      NamedCapped(names - {d}, have, full, deficit);
      CappedRatio(Qty(have, d), Qty(deficit, d));
      CappedRatio(Qty(full, d), Qty(deficit, d));
    }
  }

  /** A domain whose own machines cover the demand, when no other domain's own do, is
      the one chosen, whatever else any domain holds. */
  lemma OwnDomainChosen(stats: map<string, Stat>, deficit: ResVec, v: string)
    requires v in stats && stats[v].count > 0
    requires Covers(stats[v].own, deficit) && Covers(stats[v].cred, deficit) && Covers(stats[v].total, deficit)
    requires forall u | u in stats && u != v && stats[u].count > 0 :: !Covers(stats[u].own, deficit)
    ensures Choice(stats, deficit) == Some(v)
  {
    forall u | u in stats && u != v && stats[u].count > 0
      ensures Outranks(StandingAs(v, stats[v], deficit), StandingAs(u, stats[u], deficit))
    {
      var p := Positive(deficit);
      NamedCapped(p, stats[u].cred, stats[v].cred, deficit);
      NamedCapped(p, stats[u].own, stats[v].own, deficit);
      var d :| d in deficit && deficit[d] > Qty(stats[u].own, d);
      assert d in p;
    }
    ChoiceIs(stats, deficit, v);
  }
}
