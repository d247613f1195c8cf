/** Resource vectors: what a Need asks for and what a machine provides.
    A vector maps a resource name to a quantity in milli-units; a name that is
    absent counts as zero. */
module Resources {
  type ResVec = map<string, nat>

  function Qty(v: ResVec, d: string): nat {
    if d in v then v[d] else 0
  }

  function Monus(x: nat, y: nat): nat {
    if x < y then 0 else x - y
  }

  function Add(a: ResVec, b: ResVec): ResVec {
    map d | d in a.Keys + b.Keys :: Qty(a, d) + Qty(b, d)
  }

  /** Repeated addition. */
  function Times(x: nat, k: nat): nat {
    if x == 0 then 0 else k + Times(x - 1, k)
  }

  lemma TimesMonotone(x: nat, y: nat, k: nat)
    requires x <= y
    ensures Times(x, k) <= Times(y, k)
    ensures x < y ==> Times(x, k) + k <= Times(y, k)
  {
    if x < y {
      TimesMonotone(x, y - 1, k);
    }
  }

  /** Every dimension multiplied; nothing at all when there is nothing to multiply. */
  function Scale(v: ResVec, n: nat): ResVec {
    if n == 0 then map[] else map d | d in v :: Times(n, v[d])
  }

  method ScaleResources(v: ResVec, n: int) returns (r: ResVec)
    ensures r == if n <= 0 then map[] else Scale(v, n)
  {
    r := map[];
    if n <= 0 || v == map[] {
      return;
    }
    var todo := v.Keys;
    while todo != {}
      invariant todo <= v.Keys && r.Keys == v.Keys - todo
      invariant forall d | d in r :: r[d] == Times(n, v[d])
      decreases todo
    {
      var d :| d in todo;
      todo := todo - {d};
      var scaled := v[d];
      for j := 1 to n
        invariant scaled == Times(j, v[d])
      {
        scaled := scaled + v[d];
      }
      r := r[d := scaled];
    }
  }

  lemma ScaleNext(v: ResVec, n: nat)
    ensures Scale(v, n + 1) == Add(Scale(v, n), v)
  {
    var l, r := Scale(v, n + 1), Add(Scale(v, n), v);
    assert l.Keys == r.Keys;
    forall d | d in l
      ensures l[d] == r[d]
    {
      assert Times(n + 1, v[d]) == v[d] + Times(n, v[d]);
    }
  }

  /** Saturating difference: a dimension that would go negative is zero. */
  function Sub(a: ResVec, b: ResVec): ResVec {
    map d | d in a.Keys + b.Keys :: Monus(Qty(a, d), Qty(b, d))
  }

  /** Per-dimension maximum. */
  function Max(a: ResVec, b: ResVec): ResVec {
    map d | d in a.Keys + b.Keys :: if Qty(a, d) < Qty(b, d) then Qty(b, d) else Qty(a, d)
  }

  predicate Covers(have: ResVec, want: ResVec) {
    forall d | d in want :: want[d] <= Qty(have, d)
  }

  predicate IsZero(v: ResVec) {
    forall d | d in v :: v[d] == 0
  }

  lemma AddComm(a: ResVec, b: ResVec)
    ensures Add(a, b) == Add(b, a)
  {
  }

  lemma AddAssoc(a: ResVec, b: ResVec, c: ResVec)
    ensures Add(Add(a, b), c) == Add(a, Add(b, c))
  {
    var l, r := Add(Add(a, b), c), Add(a, Add(b, c));
    assert l.Keys == r.Keys;
    forall d | d in l
      ensures l[d] == r[d]
    {
      assert l[d] == Qty(a, d) + Qty(b, d) + Qty(c, d);
    }
  }

  lemma AddNothing(a: ResVec)
    ensures Add(a, map[]) == a && Add(map[], a) == a
  {
    assert Add(a, map[]).Keys == a.Keys && Add(map[], a).Keys == a.Keys;
  }

  /** Subtracting twice is subtracting the sum once: the running residual of a
      supply walk depends only on the total that was taken. */
  lemma SubSub(a: ResVec, b: ResVec, c: ResVec)
    ensures Sub(Sub(a, b), c) == Sub(a, Add(b, c))
  {
    assert Sub(Sub(a, b), c).Keys == Sub(a, Add(b, c)).Keys;
  }

  lemma SubNothing(a: ResVec)
    ensures Sub(a, map[]) == a
  {
    assert Sub(a, map[]).Keys == a.Keys;
  }

  /** The residual is zero exactly when the supply covers the demand. */
  lemma ResidualZero(want: ResVec, have: ResVec)
    ensures IsZero(Sub(want, have)) <==> Covers(have, want)
  {
    var r := Sub(want, have);
    forall d | d in want && r[d] == 0
      ensures want[d] <= Qty(have, d)
    {
    }
    if Covers(have, want) {
      forall d | d in r
        ensures r[d] == 0
      {
        if d in want {
          assert want[d] <= Qty(have, d);
        }
      }
    }
  }

  lemma CoversMore(big: ResVec, small: ResVec, want: ResVec)
    requires forall d :: Qty(small, d) <= Qty(big, d)
    requires Covers(small, want)
    ensures Covers(big, want)
  {
    forall d | d in want
      ensures want[d] <= Qty(big, d)
    {
      assert want[d] <= Qty(small, d) <= Qty(big, d);
    }
  }
}
