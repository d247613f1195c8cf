/** The locked cost, victim-score and drain-grace formulas. */
module Scoring {
  import opened Fleet

  const MAX_INT32 := 0x7FFF_FFFF
  const MIN_INT32 := -0x8000_0000

  const PINNED := 27

  function PenaltyDollars(bucket: nat): Penalty {
    if bucket < 2 then Amount(0.0) else if bucket == 2 then Amount(0.5)
    else if bucket == PINNED then Unbounded
    else Amount(Doubled(bucket - 3))
  }

  function Doubled(n: nat): real {
    if n == 0 then 1.0 else 2.0 * Doubled(n - 1)
  }

  /** From the half-dollar bucket on, each bucket is worth twice the one before, up to the
      pinned one, which is above them all. */
  lemma PenaltyLadder(bucket: nat)
    requires bucket < PINNED
    ensures bucket + 1 < PINNED ==>
              PenaltyDollars(bucket + 1).dollars == (if bucket < 2 then bucket as real / 2.0
                                                     else 2.0 * PenaltyDollars(bucket).dollars)
    ensures PenaltyDollars(bucket).Less(PenaltyDollars(PINNED))
  {
    if bucket >= 3 {
      assert Doubled(bucket - 2) == 2.0 * Doubled(bucket - 3);
    }
  }

  /** A cost as floating-point arithmetic gives it. */
  datatype Cost = Known(dollars: real) | Infinite | MinusInfinite | NotANumber {
    /** The comparison `<`: never true of what is not a number. */
    predicate Less(o: Cost) {
      match this
      case Known(x) => o.Infinite? || (o.Known? && x < o.dollars)
      case MinusInfinite => o.Known? || o.Infinite?
      case _ => false
    }

    /** The comparison `==`. */
    predicate Same(o: Cost) {
      this != NotANumber && this == o
    }
  }

  /** Price plus expected loss; an unbounded penalty times no risk is not a number. */
  function EffectiveCost(m: Machine, penalty: Penalty): Cost {
    match penalty
    case Amount(d) => Known(m.price + m.interruptionProbability * (if d < 0.0 then 0.0 else d))
    case Unbounded =>
      if m.interruptionProbability > 0.0 then Infinite
      else if m.interruptionProbability < 0.0 then MinusInfinite
      else NotANumber
  }

  /** A machine no dearer and no likelier to be interrupted never costs more, whatever the
      penalty. Where the penalty has a bound the costs can be compared, and a negative one
      counts as none. */
  lemma CostOrder(a: Machine, b: Machine, penalty: Penalty)
    requires a.price <= b.price && a.interruptionProbability <= b.interruptionProbability
    ensures !EffectiveCost(b, penalty).Less(EffectiveCost(a, penalty))
    ensures penalty.Amount? ==>
              EffectiveCost(a, penalty).Same(EffectiveCost(b, penalty)) ||
              EffectiveCost(a, penalty).Less(EffectiveCost(b, penalty))
    ensures penalty.Amount? && penalty.dollars <= 0.0 ==> EffectiveCost(a, penalty) == Known(a.price)
  {
    if penalty.Amount? {
      var d := if penalty.dollars < 0.0 then 0.0 else penalty.dollars;
      Larger(a.interruptionProbability, b.interruptionProbability, d);
    }
  }

  /** Where the penalty is bounded and no machine is dearer for being at risk of nothing: at
      no penalty the price is all, and each further dollar costs the probability. */
  lemma CostSlope(m: Machine, d: real, e: real)
    requires d >= 0.0 && e >= 0.0
    ensures EffectiveCost(m, Amount(0.0)) == Known(m.price)
    ensures EffectiveCost(m, Amount(d)).Known? && EffectiveCost(m, Amount(d + e)).Known?
    ensures EffectiveCost(m, Amount(d + e)).dollars - EffectiveCost(m, Amount(d)).dollars ==
            e * m.interruptionProbability
  {
    assert m.interruptionProbability * (d + e) == m.interruptionProbability * d + m.interruptionProbability * e;
  }

  datatype Weights = Weights(priority: real, drainSpeed: real, interruption: real, reclamation: real)

  function AtLeast(x: real, floor: real): real {
    if x < floor then floor else x
  }

  function GapTerm(preemptor: int, priority: int, weight: real): real {
    AtLeast((preemptor - priority) as real, 0.0) * weight
  }

  function Reciprocal(x: real, floor: real, weight: real): real
    requires floor > 0.0
  {
    1.0 / AtLeast(x, floor) * weight
  }

  /** An unbounded penalty contributes nothing. */
  function PenaltyTerm(p: Penalty, weight: real): real {
    match p
    case Amount(d) => Reciprocal(d, 0.01, weight)
    case Unbounded => 0.0
  }

  /** Higher is the better victim: a wide priority gap, a fast drain, small penalties. */
  function VictimScore(preemptor: int, m: Machine, drainSeconds: real, w: Weights): real {
    GapTerm(preemptor, m.assignedPriority, w.priority)
    + Reciprocal(drainSeconds, 1.0, w.drainSpeed)
    + PenaltyTerm(m.assignedInterruption, w.interruption)
    + PenaltyTerm(m.assignedReclamation, w.reclamation)
  }

  lemma Cancel(p: real, q: real, x: real)
    requires x > 0.0 && p * x <= q * x
    ensures p <= q
  {
  }

  lemma Larger(p: real, q: real, x: real)
    requires p <= q && x >= 0.0
    ensures p * x <= q * x && (p < q && x > 0.0 ==> p * x < q * x)
  {
  }

  lemma Inverses(u: real, v: real, a: real, b: real)
    requires 0.0 < u <= v && b > 0.0 && a * u == 1.0 && b * v == 1.0
    ensures b <= a
  {
    Larger(u, v, b);
    Cancel(b, a, u);
  }

  lemma ReciprocalFalls(x: real, y: real, floor: real, weight: real)
    requires floor > 0.0 && x <= y && weight >= 0.0
    ensures Reciprocal(x, floor, weight) >= Reciprocal(y, floor, weight)
  {
    var u, v := AtLeast(x, floor), AtLeast(y, floor);
    Inverses(u, v, 1.0 / u, 1.0 / v);
    Larger(1.0 / v, 1.0 / u, weight);
  }

  lemma PenaltyTermFalls(p: Penalty, q: Penalty, weight: real)
    requires !q.Less(p) && weight >= 0.0
    ensures PenaltyTerm(p, weight) >= PenaltyTerm(q, weight)
  {
    if p.Amount? && q.Amount? {
      ReciprocalFalls(p.dollars, q.dollars, 0.01, weight);
    } else if p.Amount? {
      var r := 1.0 / AtLeast(p.dollars, 0.01);
      assert r >= 0.0 && 0.0 * weight == 0.0;
      assert PenaltyTerm(p, weight) == r * weight;
      Larger(0.0, r, weight);
    }
  }

  lemma GapTermFalls(preemptor: int, x: int, y: int, weight: real)
    requires x <= y && weight >= 0.0
    ensures GapTerm(preemptor, x, weight) >= GapTerm(preemptor, y, weight)
    ensures x < y && x < preemptor && weight > 0.0 ==> GapTerm(preemptor, x, weight) > GapTerm(preemptor, y, weight)
  {
    var u, v := AtLeast((preemptor - x) as real, 0.0), AtLeast((preemptor - y) as real, 0.0);
    assert v <= u && (x < y && x < preemptor ==> v < u);
    assert GapTerm(preemptor, x, weight) == u * weight && GapTerm(preemptor, y, weight) == v * weight;
    Larger(v, u, weight);
  }

  lemma Sum4(a: real, b: real, c: real, d: real, e: real, f: real, g: real)
    requires a >= e && c >= f && d >= g
    ensures a + b + c + d >= e + b + f + g && (a > e ==> a + b + c + d > e + b + f + g)
  {
  }

  /** Under weights that are not negative, a machine serving no higher a priority, at no
      higher penalties, is no worse a victim; and strictly better if it serves a strictly
      lower one, below the preemptor's, and the gap counts. */
  lemma BetterVictim(preemptor: int, a: Machine, b: Machine, drainSeconds: real, w: Weights)
    requires w.priority >= 0.0 && w.interruption >= 0.0 && w.reclamation >= 0.0
    requires a.assignedPriority <= b.assignedPriority
    requires !b.assignedInterruption.Less(a.assignedInterruption) && !b.assignedReclamation.Less(a.assignedReclamation)
    ensures VictimScore(preemptor, a, drainSeconds, w) >= VictimScore(preemptor, b, drainSeconds, w)
    ensures a.assignedPriority < b.assignedPriority && a.assignedPriority < preemptor && w.priority > 0.0 ==>
              VictimScore(preemptor, a, drainSeconds, w) > VictimScore(preemptor, b, drainSeconds, w)
  {
    GapTermFalls(preemptor, a.assignedPriority, b.assignedPriority, w.priority);
    PenaltyTermFalls(a.assignedInterruption, b.assignedInterruption, w.interruption);
    PenaltyTermFalls(a.assignedReclamation, b.assignedReclamation, w.reclamation);
    Sum4(GapTerm(preemptor, a.assignedPriority, w.priority), Reciprocal(drainSeconds, 1.0, w.drainSpeed),
         PenaltyTerm(a.assignedInterruption, w.interruption), PenaltyTerm(a.assignedReclamation, w.reclamation),
         GapTerm(preemptor, b.assignedPriority, w.priority),
         PenaltyTerm(b.assignedInterruption, w.interruption), PenaltyTerm(b.assignedReclamation, w.reclamation));
  }

  predicate IsInt32(x: int) {
    MIN_INT32 <= x <= MAX_INT32
  }

  /** Two's-complement truncation to 32 bits. */
  function Wrap32(x: int): int {
    (x - MIN_INT32) % 0x1_0000_0000 + MIN_INT32
  }

  /** Seconds of graceful shutdown for a priority gap. */
  function GraceTable(gap: int): nat {
    if gap > 900_000 then 10 else if gap > 500_000 then 30 else if gap > 100_000 then 120 else 600
  }

  /** The gap is taken in 32-bit arithmetic. */
  function DrainGrace(preemptor: int, victim: int): nat {
    GraceTable(Wrap32(preemptor - victim))
  }

  /** A preemption gets the grace its gap calls for exactly when the gap fits in 32
      bits; a wider gap, which should have the shortest grace, gets the longest. */
  lemma GraceExact(preemptor: int, victim: int)
    requires IsInt32(preemptor) && IsInt32(victim) && victim < preemptor
    ensures DrainGrace(preemptor, victim) == GraceTable(preemptor - victim) <==> preemptor - victim <= MAX_INT32
    ensures preemptor - victim > MAX_INT32 ==>
              DrainGrace(preemptor, victim) == 600 && GraceTable(preemptor - victim) == 10
  {
    if preemptor - victim <= MAX_INT32 {
      WrapFits(preemptor - victim);
    } else {
      WrapOver(preemptor - victim);
    }
  }

  lemma WrapFits(x: int)
    requires IsInt32(x)
    ensures Wrap32(x) == x
  {
  }

  lemma WrapOver(x: int)
    requires MAX_INT32 < x <= MAX_INT32 - MIN_INT32
    ensures Wrap32(x) == x - 0x1_0000_0000
  {
    ModOver(x - MIN_INT32, 0x1_0000_0000);
  }

  lemma ModOver(y: int, m: int)
    requires 0 < m <= y < 2 * m
    ensures y % m == y - m
  {
    assert y == m * 1 + (y - m);
  }

  /** The widest gaps get the wrong grace, for example this one. */
  lemma GraceWraps()
    ensures DrainGrace(MAX_INT32, -1) == 600 && GraceTable(MAX_INT32 - -1) == 10
  {
    GraceExact(MAX_INT32, -1);
  }

  // ---- What each weight weighs --------------------------------------------

  lemma OnlyReciprocal(x: real, floor: real)
    requires floor > 0.0
    ensures Reciprocal(x, floor, 0.0) == 0.0
    ensures Reciprocal(x, floor, 1.0) * (if x < floor then floor else x) == 1.0
  {
    var y := AtLeast(x, floor);
    var r := 1.0 / y;
    assert r * y == 1.0 && r * 0.0 == 0.0 && r * 1.0 == r;
  }

  predicate PenaltyPart(p: Penalty, score: real) {
    match p
    case Amount(d) => score * (if d < 0.01 then 0.01 else d) == 1.0
    case Unbounded => score == 0.0
  }

  lemma OnlyPenalty(p: Penalty)
    ensures PenaltyTerm(p, 0.0) == 0.0 && PenaltyPart(p, PenaltyTerm(p, 1.0))
  {
    if p.Amount? {
      OnlyReciprocal(p.dollars, 0.01);
    }
  }

  /** Each weight weighs one thing: alone, it gives the priority gap (no less than zero), or
      the reciprocal of the drain time (no less than a second), of the interruption or of
      the reclamation penalty (no less than a cent; nothing for an unbounded one). */
  lemma WeightsApart(preemptor: int, m: Machine, drainSeconds: real)
    ensures VictimScore(preemptor, m, drainSeconds, Weights(1.0, 0.0, 0.0, 0.0)) ==
            if preemptor < m.assignedPriority then 0.0 else (preemptor - m.assignedPriority) as real
    ensures VictimScore(preemptor, m, drainSeconds, Weights(0.0, 1.0, 0.0, 0.0))
            * (if drainSeconds < 1.0 then 1.0 else drainSeconds) == 1.0
    ensures PenaltyPart(m.assignedInterruption, VictimScore(preemptor, m, drainSeconds, Weights(0.0, 0.0, 1.0, 0.0)))
    ensures PenaltyPart(m.assignedReclamation, VictimScore(preemptor, m, drainSeconds, Weights(0.0, 0.0, 0.0, 1.0)))
  {
    OnlyReciprocal(drainSeconds, 1.0);
    OnlyPenalty(m.assignedInterruption);
    OnlyPenalty(m.assignedReclamation);
    var gap := AtLeast((preemptor - m.assignedPriority) as real, 0.0);
    assert gap * 0.0 == 0.0 && gap * 1.0 == gap;
    assert (preemptor - m.assignedPriority) as real < 0.0 <==> preemptor < m.assignedPriority;
  }

  function Plus(v: Weights, w: Weights): Weights {
    Weights(v.priority + w.priority, v.drainSpeed + w.drainSpeed, v.interruption + w.interruption,
            v.reclamation + w.reclamation)
  }

  lemma Spread(x: real, v: real, w: real)
    ensures x * (v + w) == x * v + x * w
  {
  }

  lemma ReciprocalPlus(x: real, floor: real, v: real, w: real)
    requires floor > 0.0
    ensures Reciprocal(x, floor, v + w) == Reciprocal(x, floor, v) + Reciprocal(x, floor, w)
  {
    Spread(1.0 / AtLeast(x, floor), v, w);
  }

  lemma PenaltyPlus(p: Penalty, v: real, w: real)
    ensures PenaltyTerm(p, v + w) == PenaltyTerm(p, v) + PenaltyTerm(p, w)
  {
    if p.Amount? {
      ReciprocalPlus(p.dollars, 0.01, v, w);
    }
  }

  /** ... and the weighed parts add up. */
  lemma WeightsAdd(preemptor: int, m: Machine, drainSeconds: real, v: Weights, w: Weights)
    ensures VictimScore(preemptor, m, drainSeconds, Plus(v, w)) ==
            VictimScore(preemptor, m, drainSeconds, v) + VictimScore(preemptor, m, drainSeconds, w)
  {
    Spread(AtLeast((preemptor - m.assignedPriority) as real, 0.0), v.priority, w.priority);
    ReciprocalPlus(drainSeconds, 1.0, v.drainSpeed, w.drainSpeed);
    PenaltyPlus(m.assignedInterruption, v.interruption, w.interruption);
    PenaltyPlus(m.assignedReclamation, v.reclamation, w.reclamation);
  }

  /** The wider the gap the shorter the grace, in four steps. */
  lemma GraceShrinks(gap: int, wider: int)
    requires gap <= wider
    ensures GraceTable(gap) >= GraceTable(wider)
    ensures GraceTable(100_000) == 600 && GraceTable(100_001) == 120 && GraceTable(500_000) == 120
    ensures GraceTable(500_001) == 30 && GraceTable(900_000) == 30 && GraceTable(900_001) == 10
    ensures gap < 0 ==> GraceTable(gap) == 600
  {
  }
}
