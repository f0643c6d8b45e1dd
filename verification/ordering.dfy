/**
 * The stable order that LessThan imposes on two instances of one
 * property. Strings are ordered as Go orders them (byte-wise, which for
 * UTF-8 text is code-point order); the order on instances is given here
 * by a reference definition: rank an instance (IRI, no value, value) and
 * compare the ranks, breaking ties by the IRI text or by the value kind's
 * own order.
 */
module Ordering {

  /** Go's `a < b` on strings: lexicographic, a proper prefix sorts first. */
  predicate LexLess(a: string, b: string)
  {
    if |a| == 0 then |b| > 0
    else if |b| == 0 then false
    else if a[0] != b[0] then a[0] < b[0]
    else LexLess(a[1..], b[1..])
  }

  lemma {:induction false} LexLessIrreflexive(a: string)
    ensures !LexLess(a, a)
  {
    if |a| > 0 {
      LexLessIrreflexive(a[1..]);
    }
  }

  lemma {:induction false} LexLessTransitive(a: string, b: string, c: string)
    requires LexLess(a, b) && LexLess(b, c)
    ensures LexLess(a, c)
  {
    if |a| > 0 && |b| > 0 && |c| > 0 && a[0] == b[0] && b[0] == c[0] {
      LexLessTransitive(a[1..], b[1..], c[1..]);
    }
  }

  lemma {:induction false} LexLessTotal(a: string, b: string)
    requires a != b
    ensures LexLess(a, b) || LexLess(b, a)
  {
    if |a| > 0 && |b| > 0 && a[0] == b[0] {
      assert a == [a[0]] + a[1..] && b == [b[0]] + b[1..];
      LexLessTotal(a[1..], b[1..]);
    }
  }

  ghost predicate Irreflexive<T(!new)>(less: (T, T) -> bool)
  {
    forall x :: !less(x, x)
  }

  ghost predicate Transitive<T(!new)>(less: (T, T) -> bool)
  {
    forall x, y, z :: less(x, y) && less(y, z) ==> less(x, z)
  }

  /** Incomparability is transitive: whatever lies below z lies below y or y below z. */
  ghost predicate NegativelyTransitive<T(!new)>(less: (T, T) -> bool)
  {
    forall x, y, z :: less(x, z) ==> less(x, y) || less(y, z)
  }

  ghost predicate StrictWeakOrder<T(!new)>(less: (T, T) -> bool)
  {
    Irreflexive(less) && Transitive(less) && NegativelyTransitive(less)
  }

  /** Where an instance sorts: an IRI first, then no value (none or unknown), then a value. */
  datatype Rank<V> = IriRank(text: string) | NoValue | ValueRank(value: V)
  {
    function Position(): nat
    {
      match this
      case IriRank(_) => 0
      case NoValue => 1
      case ValueRank(_) => 2
    }
  }

  /** The reference order: by position, then by IRI text or by the value kind's order. */
  predicate RankLess<V>(a: Rank<V>, b: Rank<V>, less: (V, V) -> bool)
  {
    if a.Position() != b.Position() then a.Position() < b.Position()
    else if a.IriRank? then LexLess(a.text, b.text)
    else if a.ValueRank? then less(a.value, b.value)
    else false
  }

  lemma RankLessIrreflexive<V(!new)>(a: Rank<V>, less: (V, V) -> bool)
    requires Irreflexive(less)
    ensures !RankLess(a, a, less)
  {
    if a.IriRank? {
      LexLessIrreflexive(a.text);
    }
  }

  lemma RankLessTransitive<V(!new)>(a: Rank<V>, b: Rank<V>, c: Rank<V>, less: (V, V) -> bool)
    requires Transitive(less)
    requires RankLess(a, b, less) && RankLess(b, c, less)
    ensures RankLess(a, c, less)
  {
    if a.IriRank? && b.IriRank? && c.IriRank? {
      LexLessTransitive(a.text, b.text, c.text);
    }
  }

  lemma RankLessNegativelyTransitive<V(!new)>(a: Rank<V>, b: Rank<V>, c: Rank<V>, less: (V, V) -> bool)
    requires NegativelyTransitive(less)
    requires RankLess(a, c, less)
    ensures RankLess(a, b, less) || RankLess(b, c, less)
  {
    if a.IriRank? && b.IriRank? && c.IriRank? {
      if a.text == b.text {
        assert LexLess(b.text, c.text);
      } else if b.text == c.text {
        assert LexLess(a.text, b.text);
      } else {
        LexLessTotal(a.text, b.text);
        if LexLess(b.text, a.text) {
          LexLessTransitive(b.text, a.text, c.text);
        }
      }
    }
  }

  /** The order on ranks is a strict weak order whenever the value kind's order is one. */
  lemma RankLessStrictWeakOrder<V(!new)>(less: (V, V) -> bool)
    requires StrictWeakOrder(less)
    ensures StrictWeakOrder((a: Rank<V>, b: Rank<V>) => RankLess(a, b, less))
  {
    var rankLess := (a: Rank<V>, b: Rank<V>) => RankLess(a, b, less);
    forall a: Rank<V> ensures !rankLess(a, a) {
      RankLessIrreflexive(a, less);
    }
    forall a: Rank<V>, b: Rank<V>, c: Rank<V> | rankLess(a, b) && rankLess(b, c)
      ensures rankLess(a, c)
    {
      RankLessTransitive(a, b, c, less);
    }
    forall a: Rank<V>, b: Rank<V>, c: Rank<V> | rankLess(a, c)
      ensures rankLess(a, b) || rankLess(b, c)
    {
      RankLessNegativelyTransitive(a, b, c, less);
    }
  }
}
