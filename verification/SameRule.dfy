/** What the domain choice means for the supply itself: which domain a gang is sent to, said
    without scores. */
module SameRule {
  import opened Resources
  import opened Fleet
  import opened Order
  import opened SameBucket
  import opened SameChoice

  predicate Wanted(deficit: seq<nat>, i: nat) {
    i < |deficit| && deficit[i] > 0
  }

  /** How much of a dimension's demand the supply meets. */
  function Useful(have: seq<nat>, deficit: seq<nat>, i: nat): nat
    requires i < |deficit|
  {
    if At(have, i) < deficit[i] then At(have, i) else deficit[i]
  }

  /** `x` meets at least as much of every wanted dimension as `y`. */
  predicate MeetsAll(x: seq<nat>, y: seq<nat>, deficit: seq<nat>) {
    forall i | 0 <= i < |deficit| && Wanted(deficit, i) :: Useful(y, deficit, i) <= Useful(x, deficit, i)
  }

  /** ... and more of some. */
  predicate MeetsMore(x: seq<nat>, y: seq<nat>, deficit: seq<nat>) {
    && MeetsAll(x, y, deficit)
    && exists i :: 0 <= i < |deficit| && Wanted(deficit, i) && Useful(y, deficit, i) < Useful(x, deficit, i)
  }

  predicate MeetsSame(x: seq<nat>, y: seq<nat>, deficit: seq<nat>) {
    MeetsAll(x, y, deficit) && MeetsAll(y, x, deficit)
  }

  /** `x` is no larger than `y` in any wanted dimension. */
  predicate NoLarger(x: seq<nat>, y: seq<nat>, deficit: seq<nat>) {
    forall i | 0 <= i < |deficit| && Wanted(deficit, i) :: At(x, i) <= At(y, i)
  }

  predicate AsLarge(x: seq<nat>, y: seq<nat>, deficit: seq<nat>) {
    NoLarger(x, y, deficit) && NoLarger(y, x, deficit)
  }

  predicate Smaller(x: seq<nat>, y: seq<nat>, deficit: seq<nat>) {
    NoLarger(x, y, deficit) && exists i :: 0 <= i < |deficit| && Wanted(deficit, i) && At(x, i) < At(y, i)
  }

  // ---- Scores follow the supply -------------------------------------------

  lemma ShareRises(x: nat, y: nat, w: nat)
    requires w > 0 && x <= y
    ensures x as real / w as real <= y as real / w as real
    ensures x < y ==> x as real / w as real < y as real / w as real
  {
    var a, b, d := x as real / w as real, y as real / w as real, w as real;
    assert a * d == x as real && b * d == y as real;
    if a > b {
      Raised(b, a, d);
    }
  }

  lemma Raised(a: real, b: real, d: real)
    requires a < b && d > 0.0
    ensures a * d < b * d
  {
  }

  lemma CappedShare(have: nat, want: nat)
    requires want > 0
    ensures Ratio(have, want, true) == (if have < want then have else want) as real / want as real
  {
    ShareRises(if have < want then have else want, if have < want then want else have, want);
    Quotient(want as real, want as real);
  }

  lemma RatioRises(x: nat, y: nat, want: nat, capped: bool)
    requires want > 0
    requires if capped then (if x < want then x else want) <= (if y < want then y else want) else x <= y
    ensures Ratio(x, want, capped) <= Ratio(y, want, capped)
    ensures (if capped then (if x < want then x else want) < (if y < want then y else want) else x < y) ==>
              Ratio(x, want, capped) < Ratio(y, want, capped)
  {
    if capped {
      CappedShare(x, want);
      CappedShare(y, want);
      ShareRises(if x < want then x else want, if y < want then y else want, want);
    } else {
      ShareRises(x, y, want);
    }
  }

  /** Per dimension, `x` counts no more than `y`. */
  predicate CountsLess(x: seq<nat>, y: seq<nat>, deficit: seq<nat>, capped: bool) {
    if capped then MeetsAll(y, x, deficit) else NoLarger(x, y, deficit)
  }

  predicate CountsLessAt(x: seq<nat>, y: seq<nat>, deficit: seq<nat>, capped: bool, i: nat) {
    Wanted(deficit, i) && if capped then Useful(x, deficit, i) < Useful(y, deficit, i) else At(x, i) < At(y, i)
  }

  lemma {:induction false} ScoreRises(x: seq<nat>, y: seq<nat>, deficit: seq<nat>, capped: bool, k: nat)
    requires k <= |deficit| && CountsLess(x, y, deficit, capped)
    ensures ScoreUpTo(x, deficit, capped, k) <= ScoreUpTo(y, deficit, capped, k)
    ensures (exists i :: 0 <= i < k && CountsLessAt(x, y, deficit, capped, i)) ==>
              ScoreUpTo(x, deficit, capped, k) < ScoreUpTo(y, deficit, capped, k)
    decreases k
  {
    if k > 0 {
      ScoreRises(x, y, deficit, capped, k - 1);
      if deficit[k - 1] > 0 {
        assert Wanted(deficit, k - 1);
        RatioRises(At(x, k - 1), At(y, k - 1), deficit[k - 1], capped);
      }
      if i :| 0 <= i < k && CountsLessAt(x, y, deficit, capped, i) {
        assert i < k - 1 || i == k - 1;
      }
    }
  }

  lemma MoreScores(x: seq<nat>, y: seq<nat>, deficit: seq<nat>)
    ensures MeetsAll(x, y, deficit) ==> Score(y, deficit, true) <= Score(x, deficit, true)
    ensures MeetsMore(x, y, deficit) ==> Score(y, deficit, true) < Score(x, deficit, true)
    ensures Smaller(x, y, deficit) ==> Score(x, deficit, false) < Score(y, deficit, false)
    ensures NoLarger(x, y, deficit) ==> Score(x, deficit, false) <= Score(y, deficit, false)
  {
    if MeetsAll(x, y, deficit) {
      ScoreRises(y, x, deficit, true, |deficit|);
      if i :| 0 <= i < |deficit| && Wanted(deficit, i) && Useful(y, deficit, i) < Useful(x, deficit, i) {
        assert CountsLessAt(y, x, deficit, true, i);
      }
    }
    if NoLarger(x, y, deficit) {
      ScoreRises(x, y, deficit, false, |deficit|);
      if i :| 0 <= i < |deficit| && Wanted(deficit, i) && At(x, i) < At(y, i) {
        assert CountsLessAt(x, y, deficit, false, i);
      }
    }
  }

  // ---- The chosen domain --------------------------------------------------

  /** More machines, or as many and the lesser name. */
  predicate WinsTie(b: Bucket, o: Bucket) {
    b.count > o.count || (b.count == o.count && LexLess(b.value, o.value))
  }

  /** Why `b` is preferred to `o`. A domain that covers the demand is preferred to one that
      does not. Where neither does, the other meets no more of the demand; if it meets the
      same, no more of it from what is the cluster's already; then the tie rules. Where both
      do, the other meets no more from what is the cluster's already; if the same, no more
      from the gang's own machines; if that is the same, it is no smaller; then the tie
      rules. */
  predicate PreferredTo(b: Bucket, o: Bucket, deficit: seq<nat>) {
    && (VecCovers(o.total, deficit) ==> VecCovers(b.total, deficit))
    && (!VecCovers(b.total, deficit) ==>
          && !MeetsMore(o.total, b.total, deficit)
          && (MeetsSame(o.total, b.total, deficit) ==>
                && !MeetsMore(o.cred, b.cred, deficit)
                && (MeetsSame(o.cred, b.cred, deficit) ==> WinsTie(b, o))))
    && (VecCovers(b.total, deficit) && VecCovers(o.total, deficit) ==>
          && !MeetsMore(o.cred, b.cred, deficit)
          && (MeetsSame(o.cred, b.cred, deficit) ==>
                && !MeetsMore(o.own, b.own, deficit)
                && (MeetsSame(o.own, b.own, deficit) ==>
                      && !Smaller(o.total, b.total, deficit)
                      && (AsLarge(o.total, b.total, deficit) ==> WinsTie(b, o)))))
  }

  lemma OutranksPrefers(b: Bucket, o: Bucket, deficit: seq<nat>)
    requires Outranks(StandingOf(b, deficit), StandingOf(o, deficit))
    ensures PreferredTo(b, o, deficit)
  {
    MoreScores(o.total, b.total, deficit);
    MoreScores(b.total, o.total, deficit);
    MoreScores(o.cred, b.cred, deficit);
    MoreScores(b.cred, o.cred, deficit);
    MoreScores(o.own, b.own, deficit);
    MoreScores(b.own, o.own, deficit);
  }

  /** The chosen domain is preferred to every other that holds a machine. */
  lemma ChosenPreferred(buckets: seq<Bucket>, deficit: seq<nat>, best: nat, j: nat)
    requires IsBestAt(buckets, deficit, best) && j < |buckets| && j != best && buckets[j].count > 0
    ensures PreferredTo(buckets[best], buckets[j], deficit)
  {
    OutranksPrefers(buckets[best], buckets[j], deficit);
  }

  /** A domain that covers the demand is chosen whenever there is one. */
  lemma CoveringChosen(buckets: seq<Bucket>, deficit: seq<nat>, best: nat)
    requires IsBestAt(buckets, deficit, best)
    ensures VecCovers(buckets[best].total, deficit) <==>
            exists j :: 0 <= j < |buckets| && buckets[j].count > 0 && VecCovers(buckets[j].total, deficit)
  {
    if j :| 0 <= j < |buckets| && buckets[j].count > 0 && VecCovers(buckets[j].total, deficit) {
      if j != best {
        ChosenPreferred(buckets, deficit, best, j);
      }
    }
  }

  /** The same for the choice over named supply: it covers exactly when some domain does. */
  lemma CoveringChoice(stats: map<string, Stat>, deficit: ResVec, v: string)
    requires Choice(stats, deficit) == Some(v)
    ensures v in stats && stats[v].count > 0
    ensures Covers(stats[v].total, deficit) <==>
            exists u :: u in stats && stats[u].count > 0 && Covers(stats[u].total, deficit)
  {
    var w :| IsBest(stats, deficit, w);
    ChoiceIs(stats, deficit, w);
    if u :| u in stats && stats[u].count > 0 && Covers(stats[u].total, deficit) {
      assert u != v ==> Outranks(StandingAs(v, stats[v], deficit), StandingAs(u, stats[u], deficit));
    }
  }
}
