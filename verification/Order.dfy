/** The byte-wise lexicographic order of strings, and sorting by it. */
module Order {
  predicate LexLess(a: string, b: string) {
    if b == "" then false
    else if a == "" then true
    else if a[0] != b[0] then a[0] < b[0]
    else LexLess(a[1..], b[1..])
  }

  lemma LexIrreflexive(a: string)
    ensures !LexLess(a, a)
  {
    if a != "" {
      LexIrreflexive(a[1..]);
    }
  }

  lemma LexTransitive(a: string, b: string, c: string)
    requires LexLess(a, b) && LexLess(b, c)
    ensures LexLess(a, c)
  {
    if a != "" && a[0] == b[0] && b[0] == c[0] {
      LexTransitive(a[1..], b[1..], c[1..]);
    }
  }

  lemma LexTotal(a: string, b: string)
    ensures LexLess(a, b) || a == b || LexLess(b, a)
  {
    if a != "" && b != "" && a[0] == b[0] {
      LexTotal(a[1..], b[1..]);
      assert a == [a[0]] + a[1..] && b == [b[0]] + b[1..];
    }
  }

  /** The two strings agree up to `k`, where the first one ends or has the lesser character. */
  predicate SplitAt(a: string, b: string, k: nat) {
    k <= |a| && k < |b| && a[..k] == b[..k] && (k < |a| ==> a[k] < b[k])
  }

  lemma SplitLater(a: string, b: string, k: nat)
    requires a != "" && b != "" && a[0] == b[0]
    ensures SplitAt(a[1..], b[1..], k) <==> SplitAt(a, b, k + 1)
  {
    if k < |a| && k < |b| {
      assert a[..k + 1] == [a[0]] + a[1..][..k] && b[..k + 1] == [b[0]] + b[1..][..k];
      assert a[..k + 1][1..] == a[1..][..k] && b[..k + 1][1..] == b[1..][..k];
    }
  }

  lemma SplitHead(a: string, b: string, k: nat)
    requires SplitAt(a, b, k)
    ensures k == 0 || a[0] == b[0]
  {
    if k > 0 {
      assert a[..k][0] == b[..k][0];
    }
  }

  /** One string comes before another exactly when it is a proper prefix, or has the lesser
      character where they first differ. */
  lemma {:induction false} LexFirst(a: string, b: string)
    ensures LexLess(a, b) <==> exists k: nat :: SplitAt(a, b, k)
    decreases |a|
  {
    if a == "" || b == "" {
      assert b != "" ==> SplitAt(a, b, 0);
    } else if a[0] != b[0] {
      forall k: nat | SplitAt(a, b, k)
        ensures k == 0
      {
        SplitHead(a, b, k);
      }
      assert a[0] < b[0] ==> SplitAt(a, b, 0);
    } else {
      LexFirst(a[1..], b[1..]);
      forall k: nat
        ensures SplitAt(a[1..], b[1..], k) <==> SplitAt(a, b, k + 1)
      {
        SplitLater(a, b, k);
      }
      if k: nat :| SplitAt(a, b, k) {
        SplitLater(a, b, k - 1);
        assert SplitAt(a[1..], b[1..], k - 1);
      }
    }
  }
}
