/**
 * A strict total order on wire strings: shorter strings come first, and
 * strings of equal length are compared character by character. Decoders
 * that try the members of a large enumeration in this order stop at the
 * first match, and the order is what shows that a later member can never
 * carry the string an earlier one already has.
 */
module WireOrder {

  /** `a` comes strictly before `b`. */
  predicate Below(a: string, b: string) {
    |a| < |b| || (|a| == |b| && exists k :: 0 <= k < |a| && a[..k] == b[..k] && a[k] < b[k])
  }

  lemma BelowIrreflexive(a: string)
    ensures !Below(a, a)
  {
  }

  lemma BelowTransitive(a: string, b: string, c: string)
    requires Below(a, b) && Below(b, c)
    ensures Below(a, c)
  {
    if |a| == |b| == |c| {
      var k1 :| 0 <= k1 < |a| && a[..k1] == b[..k1] && a[k1] < b[k1];
      var k2 :| 0 <= k2 < |b| && b[..k2] == c[..k2] && b[k2] < c[k2];
      var k := if k1 < k2 then k1 else k2;
      assert a[..k] == b[..k] by {
        assert a[..k] == a[..k1][..k] && b[..k] == b[..k1][..k];
      }
      assert b[..k] == c[..k] by {
        assert b[..k] == b[..k2][..k] && c[..k] == c[..k2][..k];
      }
      if k1 < k2 {
        assert b[k1] == b[..k2][k1] == c[..k2][k1] == c[k1];
      } else if k2 < k1 {
        assert a[k2] == a[..k1][k2] == b[..k1][k2] == b[k2];
      }
      assert a[..k] == c[..k] && a[k] < c[k];
    }
  }
}
