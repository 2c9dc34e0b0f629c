/**
 * The relational operations the queries are made of, over tables held as
 * sequences: WHERE (Filter), SUM (Sum, SqlSum), ORDER BY ... DESC
 * (OrderByDesc) and LIMIT (Limit).
 */
module Relational {
  import opened Wrappers

  /** The rows of `s` that satisfy `keep`, in table order. */
  function Filter<T(!new)>(s: seq<T>, keep: T -> bool): (r: seq<T>)
    ensures |r| <= |s|
    ensures forall x :: multiset(r)[x] == if keep(x) then multiset(s)[x] else 0
    ensures forall x :: x in r <==> x in s && keep(x)
    decreases |s|
  {
    if |s| == 0 then []
    else
      var init, last := s[..|s| - 1], s[|s| - 1];
      assert s == init + [last];
      var r := Filter(init, keep);
      if keep(last) then r + [last] else r
  }

  /** The conjunction of two row predicates (`WHERE a AND b`). */
  function And<T(!new)>(a: T -> bool, b: T -> bool): (both: T -> bool)
    ensures forall x :: both(x) <==> a(x) && b(x)
  {
    (x: T) => a(x) && b(x)
  }

  /** Appending one row appends it to the filtered rows exactly when it qualifies. */
  lemma FilterSnoc<T(!new)>(s: seq<T>, x: T, keep: T -> bool)
    ensures Filter(s + [x], keep) == Filter(s, keep) + if keep(x) then [x] else []
  {
    assert (s + [x])[..|s|] == s;
  }

  /** Two predicates that agree on every row of `s` select the same rows. */
  lemma {:induction false} FilterExt<T(!new)>(s: seq<T>, f: T -> bool, g: T -> bool)
    requires forall i :: 0 <= i < |s| ==> f(s[i]) == g(s[i])
    ensures Filter(s, f) == Filter(s, g)
    decreases |s|
  {
    if |s| > 0 {
      FilterExt(s[..|s| - 1], f, g);
    }
  }

  /** Filtering by a conjunction is filtering by one conjunct, then by the other. */
  lemma {:induction false} FilterAnd<T(!new)>(s: seq<T>, a: T -> bool, b: T -> bool)
    ensures Filter(s, And(a, b)) == Filter(Filter(s, a), b)
    decreases |s|
  {
    if |s| > 0 {
      var init, last := s[..|s| - 1], s[|s| - 1];
      FilterAnd(init, a, b);
      if a(last) {
        FilterSnoc(Filter(init, a), last, b);
      }
    }
  }

  /** The total of `val` over the rows of `s`. */
  function Sum<T>(s: seq<T>, val: T -> int): int
    decreases |s|
  {
    if |s| == 0 then 0 else Sum(s[..|s| - 1], val) + val(s[|s| - 1])
  }

  /** SQL's SUM aggregate, which is NULL (here None) over no rows at all. */
  function SqlSum<T>(s: seq<T>, val: T -> int): (r: Option<int>)
    ensures r.None? <==> |s| == 0
    ensures r.GetOr(0) == Sum(s, val)
  {
    if |s| == 0 then None else Some(Sum(s, val))
  }

  /** The total over two tables together is the sum of their totals. */
  lemma {:induction false} SumConcat<T>(a: seq<T>, b: seq<T>, val: T -> int)
    ensures Sum(a + b, val) == Sum(a, val) + Sum(b, val)
    decreases |b|
  {
    if |b| > 0 {
      var init := b[..|b| - 1];
      assert (a + b)[..|a + b| - 1] == a + init;
      SumConcat(a, init, val);
    } else {
      assert a + b == a;
    }
  }

  /** Taking row `k` out of a table takes its value out of the total. */
  lemma SumRemove<T>(t: seq<T>, k: nat, val: T -> int)
    requires k < |t|
    ensures Sum(t, val) == Sum(t[..k] + t[k + 1..], val) + val(t[k])
  {
    var a, x, b := t[..k], t[k], t[k + 1..];
    assert t == (a + [x]) + b;
    SumConcat(a + [x], b, val);
    assert (a + [x])[..|a|] == a;
    assert Sum(a + [x], val) == Sum(a, val) + val(x);
    SumConcat(a, b, val);
  }

  /** Removing the same row from two equal bags leaves equal bags. */
  lemma MultisetRemove<T>(init: seq<T>, last: T, t: seq<T>, k: nat)
    requires k < |t| && t[k] == last
    requires multiset(init + [last]) == multiset(t)
    ensures multiset(init) == multiset(t[..k] + t[k + 1..])
  {
    var rest := t[..k] + t[k + 1..];
    assert t == t[..k] + [last] + t[k + 1..];
    forall y ensures multiset(init)[y] == multiset(rest)[y] {
      assert multiset(init + [last])[y] == multiset(init)[y] + multiset{last}[y];
      assert multiset(t)[y] == multiset(rest)[y] + multiset{last}[y];
    }
  }

  /**
   * SUM is over an unordered bag of rows: rearranging the rows leaves the
   * total unchanged, although `Sum` adds them in table order.
   */
  lemma {:induction false} SumPermutation<T>(s: seq<T>, t: seq<T>, val: T -> int)
    requires multiset(s) == multiset(t)
    ensures Sum(s, val) == Sum(t, val)
    decreases |s|
  {
    if |s| > 0 {
      var init, last := s[..|s| - 1], s[|s| - 1];
      assert s == init + [last];
      assert last in multiset(t);
      var k :| 0 <= k < |t| && t[k] == last;
      MultisetRemove(init, last, t, k);
      SumPermutation(init, t[..k] + t[k + 1..], val);
      SumRemove(t, k, val);
    } else {
      assert |t| == |multiset(t)|;
    }
  }

  /** Hence SQL's SUM, NULL included, does not depend on the order the rows are stored in. */
  lemma SqlSumOrderIndependent<T>(s: seq<T>, t: seq<T>, val: T -> int)
    requires multiset(s) == multiset(t)
    ensures SqlSum(s, val) == SqlSum(t, val)
  {
    assert |s| == |multiset(s)| == |multiset(t)| == |t|;
    SumPermutation(s, t, val);
  }

  /** The first `n` rows of `s`, or all of them when there are fewer. */
  function Limit<T>(s: seq<T>, n: nat): (r: seq<T>)
    ensures |r| <= n && |r| <= |s|
    ensures |r| == n || |r| == |s|
    ensures forall i :: 0 <= i < |r| ==> r[i] == s[i]
  {
    if |s| <= n then s else s[..n]
  }

  /** `s` is ordered by `key`, largest first; rows with equal keys may come in any order. */
  predicate NonIncreasing<T>(s: seq<T>, key: T -> int) {
    forall i, j :: 0 <= i < j < |s| ==> key(s[i]) >= key(s[j])
  }

  /** A row no smaller than every row of an ordered sequence may go in front of it. */
  lemma ConsNonIncreasing<T>(h: T, t: seq<T>, key: T -> int)
    requires NonIncreasing(t, key)
    requires forall y :: y in t ==> key(y) <= key(h)
    ensures NonIncreasing([h] + t, key)
  {
    forall i, j | 0 <= i < j < |[h] + t|
      ensures key(([h] + t)[i]) >= key(([h] + t)[j])
    {
      assert ([h] + t)[j] == t[j - 1];
      if i > 0 {
        assert ([h] + t)[i] == t[i - 1];
      }
    }
  }

  /** Puts `x` into the ordered `s`, ahead of the rows whose key it equals. */
  function Insert<T>(x: T, s: seq<T>, key: T -> int): (r: seq<T>)
    requires NonIncreasing(s, key)
    ensures NonIncreasing(r, key)
    ensures multiset(r) == multiset(s) + multiset{x}
    decreases |s|
  {
    if |s| == 0 then [x]
    else if key(x) >= key(s[0]) then
      ConsNonIncreasing(x, s, key);
      [x] + s
    else
      var rest := Insert(x, s[1..], key);
      assert s == [s[0]] + s[1..];
      assert forall y :: y in rest ==> key(y) <= key(s[0]) by {
        forall y | y in rest ensures key(y) <= key(s[0]) {
          assert y in multiset(rest);
          if y != x {
            var k :| 0 <= k < |s[1..]| && s[1..][k] == y;
            assert s[k + 1] == y;
          }
        }
      }
      ConsNonIncreasing(s[0], rest, key);
      [s[0]] + rest
  }

  /** ORDER BY key DESC: the rows of `s`, rearranged so that keys never increase. */
  function OrderByDesc<T>(s: seq<T>, key: T -> int): (r: seq<T>)
    ensures NonIncreasing(r, key)
    ensures multiset(r) == multiset(s)
    ensures |r| == |s|
    decreases |s|
  {
    if |s| == 0 then []
    else
      assert s == [s[0]] + s[1..];
      Insert(s[0], OrderByDesc(s[1..], key), key)
  }

  /** The rows of an ordered sequence beyond its first `n` rank no higher than any of the first `n`. */
  lemma LimitKeepsLargest<T>(s: seq<T>, key: T -> int, n: nat)
    requires NonIncreasing(s, key)
    ensures NonIncreasing(Limit(s, n), key)
    ensures forall i, j :: 0 <= i < |Limit(s, n)| <= j < |s| ==> key(s[j]) <= key(Limit(s, n)[i])
  {
  }
}
