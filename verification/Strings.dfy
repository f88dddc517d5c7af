/** The order `cmp.Compare` puts on strings. */
module Strings {
  import opened Sorting

  predicate Below(a: string, b: string) {
    if b == "" then false
    else if a == "" then true
    else if a[0] != b[0] then a[0] < b[0]
    else Below(a[1..], b[1..])
  }

  /** The first difference decides: a smaller character there, or the end of the string. */
  lemma {:induction false} FirstDifferenceDecides(a: string, b: string, k: nat)
    requires k < |b| && k <= |a| && a[..k] == b[..k] && (k < |a| ==> a[k] != b[k])
    ensures Below(a, b) <==> k == |a| || a[k] < b[k]
    ensures Below(b, a) <==> k < |a| && b[k] < a[k]
  {
    if k > 0 {
      assert a[0] == a[..k][0] == b[..k][0] == b[0];
      assert a[1..][..k - 1] == a[..k][1..] && b[1..][..k - 1] == b[..k][1..];
      FirstDifferenceDecides(a[1..], b[1..], k - 1);
    }
  }

  /** Any two different strings are ordered one way, and only one way. */
  lemma {:induction false} Trichotomy(a: string, b: string)
    ensures a == b ==> !Below(a, b)
    ensures a != b ==> (Below(a, b) <==> !Below(b, a))
  {
    if a != "" && b != "" {
      Trichotomy(a[1..], b[1..]);
      assert a == [a[0]] + a[1..] && b == [b[0]] + b[1..];
    }
  }

  lemma {:induction false} Transitive(a: string, b: string, c: string)
    requires Below(a, b) && Below(b, c)
    ensures Below(a, c)
  {
    if a != "" && a[0] == b[0] == c[0] {
      Transitive(a[1..], b[1..], c[1..]);
    }
  }

  lemma BelowIsStrictOrder()
    ensures StrictWeakOrder(Below)
  {
    forall a, b, c
      ensures !Below(a, a)
      ensures Below(a, b) && Below(b, c) ==> Below(a, c)
      ensures Below(a, c) ==> Below(a, b) || Below(b, c)
    {
      Trichotomy(a, a);
      if Below(a, b) && Below(b, c) {
        Transitive(a, b, c);
      }
      if Below(a, c) && !Below(a, b) && !Below(b, c) {
        Trichotomy(a, b);
        Trichotomy(b, c);
        if a != b && b != c {
          Transitive(b, a, c);
        }
      }
    }
  }
}
