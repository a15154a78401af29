/** Texts and their order. */
module Texts {
  /** Byte-wise order of texts. */
  predicate Before(a: string, b: string) {
    if b == "" then false else if a == "" then true else a[0] < b[0] || (a[0] == b[0] && Before(a[1..], b[1..]))
  }

  lemma {:induction false} BeforeIsTotal(a: string, b: string)
    ensures a == b || Before(a, b) || Before(b, a)
    ensures !(Before(a, b) && Before(b, a))
    ensures !Before(a, a)
  {
    if a != "" && b != "" {
      BeforeIsTotal(a[1..], b[1..]);
      if a[0] == b[0] && a[1..] == b[1..] {
        assert a == [a[0]] + a[1..] && b == [b[0]] + b[1..];
      }
    }
    if a != "" {
      BeforeIsTotal(a[1..], a[1..]);
    }
  }

  lemma {:induction false} BeforeIsTransitive(a: string, b: string, c: string)
    requires Before(a, b) && Before(b, c)
    ensures Before(a, c)
  {
    if a != "" && a[0] == b[0] && b[0] == c[0] {
      BeforeIsTransitive(a[1..], b[1..], c[1..]);
    }
  }

  /** The texts agree up to place k, where a ends or has the smaller character. */
  ghost predicate FirstDifference(a: string, b: string, k: nat) {
    k <= |a| && k < |b| && a[..k] == b[..k] && (k == |a| || a[k] < b[k])
  }

  /** The order is that of a dictionary. */
  lemma {:induction false} BeforeIff(a: string, b: string)
    ensures Before(a, b) <==> exists k: nat :: FirstDifference(a, b, k)
  {
    if a == "" && b != "" {
      assert FirstDifference(a, b, 0);
    } else if a != "" && b != "" {
      if a[0] == b[0] {
        BeforeIff(a[1..], b[1..]);
        if k: nat :| FirstDifference(a[1..], b[1..], k) {
          LaterDifference(a, b, k);
        }
        if k: nat :| FirstDifference(a, b, k) {
          assert k > 0;
          LaterDifference(a, b, k - 1);
        }
      } else {
        FirstIsDifferent(a, b);
      }
    }
  }

  lemma LaterDifference(a: string, b: string, k: nat)
    requires a != "" && b != "" && a[0] == b[0]
    ensures FirstDifference(a[1..], b[1..], k) <==> FirstDifference(a, b, k + 1)
  {
    if k < |a| && k + 1 < |b| {
      assert a[..k + 1] == [a[0]] + a[1..][..k] && b[..k + 1] == [b[0]] + b[1..][..k];
      assert a[1..][..k] == a[..k + 1][1..] && b[1..][..k] == b[..k + 1][1..];
    }
  }

  lemma FirstIsDifferent(a: string, b: string)
    requires a != "" && b != "" && a[0] != b[0]
    ensures a[0] < b[0] <==> exists k: nat :: FirstDifference(a, b, k)
  {
    if a[0] < b[0] {
      assert FirstDifference(a, b, 0);
    }
    if k: nat :| FirstDifference(a, b, k) {
      if k > 0 {
        assert a[..k][0] == b[..k][0];
      }
    }
  }
}
