/**
 * Index tuples of a pool, in the order in which `itertools.combinations`
 * yields them: strictly increasing positions, in lexicographic order.
 */
module Combinations {

  /** `combo` is a strictly increasing tuple of positions, all in [lo, n). */
  ghost predicate IsComboFrom(combo: seq<nat>, lo: nat, n: nat)
    decreases |combo|
  {
    combo == [] || (lo <= combo[0] < n && IsComboFrom(combo[1..], combo[0] + 1, n))
  }

  /** Every position of a tuple in [lo, n) lies in [lo, n). */
  lemma {:induction false} ComboBounds(combo: seq<nat>, lo: nat, n: nat)
    requires IsComboFrom(combo, lo, n)
    ensures forall t :: 0 <= t < |combo| ==> lo <= combo[t] < n
    decreases |combo|
  {
    if combo != [] {
      ComboBounds(combo[1..], combo[0] + 1, n);
      assert forall t :: 1 <= t < |combo| ==> combo[t] == combo[1..][t - 1];
    }
  }

  /** Lexicographic "comes strictly before" on index tuples. */
  predicate LexLess(a: seq<nat>, b: seq<nat>)
    decreases |a|
  {
    && |a| > 0 && |b| > 0
    && (a[0] < b[0] || (a[0] == b[0] && LexLess(a[1..], b[1..])))
  }

  /** Each tuple of `combos` comes strictly before every later one. */
  ghost predicate LexSorted(combos: seq<seq<nat>>)
  {
    forall i, j :: 0 <= i < j < |combos| ==> LexLess(combos[i], combos[j])
  }

  /** Puts `x` in front of every tuple of `combos`. */
  function Prepend(x: nat, combos: seq<seq<nat>>): (r: seq<seq<nat>>)
    ensures |r| == |combos|
  {
    seq(|combos|, i requires 0 <= i < |combos| => [x] + combos[i])
  }

  lemma PrependMember(x: nat, combo: seq<nat>, combos: seq<seq<nat>>)
    requires combo in combos
    ensures [x] + combo in Prepend(x, combos)
  {
    var i :| 0 <= i < |combos| && combos[i] == combo;
    assert Prepend(x, combos)[i] == [x] + combo;
  }

  /**
   * All `k`-tuples of positions in [lo, n), in lexicographic order: first
   * those that start with `lo`, then those that do not use `lo` at all.
   */
  function CombosFrom(lo: nat, n: nat, k: nat): seq<seq<nat>>
    requires lo <= n
    decreases n - lo
  {
    if k == 0 then [[]]
    else if lo == n then []
    else Prepend(lo, CombosFrom(lo + 1, n, k - 1)) + CombosFrom(lo + 1, n, k)
  }

  /** Every enumerated tuple has `k` strictly increasing positions in [lo, n). */
  lemma {:induction false} CombosFromSound(lo: nat, n: nat, k: nat)
    requires lo <= n
    ensures forall c :: c in CombosFrom(lo, n, k) ==> |c| == k && IsComboFrom(c, lo, n)
    decreases n - lo
  {
    if k > 0 && lo < n {
      var first := CombosFrom(lo + 1, n, k - 1);
      var rest := CombosFrom(lo + 1, n, k);
      CombosFromSound(lo + 1, n, k - 1);
      CombosFromSound(lo + 1, n, k);
      forall c | c in CombosFrom(lo, n, k) ensures |c| == k && IsComboFrom(c, lo, n) {
        if c in Prepend(lo, first) {
          var i :| 0 <= i < |first| && Prepend(lo, first)[i] == c;
          assert first[i] in first;
          assert c[1..] == first[i];
        } else {
          assert c in rest;
        }
      }
    }
  }

  /** `combinations(range(n), k)`, as index tuples. */
  function Combos(n: nat, k: nat): seq<seq<nat>>
  {
    CombosFrom(0, n, k)
  }

  /** Every strictly increasing tuple of positions in [lo, n) is enumerated. */
  lemma {:induction false} CombosFromComplete(combo: seq<nat>, lo: nat, n: nat)
    requires lo <= n
    requires IsComboFrom(combo, lo, n)
    ensures combo in CombosFrom(lo, n, |combo|)
    decreases n - lo
  {
    var k := |combo|;
    if k > 0 {
      assert lo < n by { assert lo <= combo[0] < n; }
      if combo[0] == lo {
        CombosFromComplete(combo[1..], lo + 1, n);
        PrependMember(lo, combo[1..], CombosFrom(lo + 1, n, k - 1));
        assert [lo] + combo[1..] == combo;
      } else {
        CombosFromComplete(combo, lo + 1, n);
      }
      CombosFromUnfold(lo, n, k);
    }
  }

  /** The enumeration for `lo < n`: tuples that start at `lo`, then the rest. */
  lemma CombosFromUnfold(lo: nat, n: nat, k: nat)
    requires lo < n && k > 0
    ensures CombosFrom(lo, n, k) == Prepend(lo, CombosFrom(lo + 1, n, k - 1)) + CombosFrom(lo + 1, n, k)
  {
  }

  lemma CombosComplete(combo: seq<nat>, n: nat)
    requires IsComboFrom(combo, 0, n)
    ensures combo in Combos(n, |combo|)
  {
    CombosFromComplete(combo, 0, n);
  }

  /** The enumeration is strictly increasing in lexicographic order. */
  lemma {:induction false} CombosFromSorted(lo: nat, n: nat, k: nat)
    requires lo <= n
    ensures LexSorted(CombosFrom(lo, n, k))
    decreases n - lo
  {
    if k > 0 && lo < n {
      var first := CombosFrom(lo + 1, n, k - 1);
      var rest := CombosFrom(lo + 1, n, k);
      CombosFromSorted(lo + 1, n, k - 1);
      CombosFromSorted(lo + 1, n, k);
      PrependSorted(lo, first);
      CombosFromSound(lo + 1, n, k);
      assert forall b :: b in rest ==> |b| > 0 && lo < b[0];
      ConcatSorted(Prepend(lo, first), rest, lo);
    }
  }

  lemma PrependSorted(x: nat, combos: seq<seq<nat>>)
    requires LexSorted(combos)
    ensures LexSorted(Prepend(x, combos))
  {
    var r := Prepend(x, combos);
    forall i, j | 0 <= i < j < |r| ensures LexLess(r[i], r[j]) {
      assert r[i][1..] == combos[i] && r[j][1..] == combos[j];
    }
  }

  /** Tuples starting with `x`, followed by tuples starting above `x`, stay sorted. */
  lemma ConcatSorted(a: seq<seq<nat>>, b: seq<seq<nat>>, x: nat)
    requires LexSorted(a) && LexSorted(b)
    requires forall c :: c in a ==> |c| > 0 && c[0] == x
    requires forall c :: c in b ==> |c| > 0 && x < c[0]
    ensures LexSorted(a + b)
  {
    var r := a + b;
    forall i, j | 0 <= i < j < |r| ensures LexLess(r[i], r[j]) {
      if j < |a| {
        assert r[i] == a[i] && r[j] == a[j];
      } else if i < |a| {
        assert r[i] in a && r[j] in b;
      } else {
        assert r[i] == b[i - |a|] && r[j] == b[j - |a|];
      }
    }
  }

  /** No tuple comes strictly before itself or before one that comes before it. */
  lemma {:induction false} LexLessAsymmetric(a: seq<nat>, b: seq<nat>)
    requires LexLess(a, b)
    ensures !LexLess(b, a)
    decreases |a|
  {
    if a[0] == b[0] {
      LexLessAsymmetric(a[1..], b[1..]);
    }
  }
}
