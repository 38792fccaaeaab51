// Sums of the values of a finite map: the arithmetic behind every conservation statement.
module Sums {

  ghost function Sum<K>(m: map<K, int>): int
    decreases |m|
  {
    if m == map[] then 0 else
      var k :| k in m;
      assert |m - {k}| < |m| by { assert (m - {k}).Keys == m.Keys - {k}; }
      m[k] + Sum(m - {k})
  }

  function At<K>(m: map<K, int>, k: K): int {
    if k in m then m[k] else 0
  }

  /** Which entry is taken first does not matter. */
  lemma {:induction false} SumTake<K>(m: map<K, int>, k: K)
    requires k in m
    ensures Sum(m) == m[k] + Sum(m - {k})
    decreases |m|
  {
    var first :| first in m && Sum(m) == m[first] + Sum(m - {first});
    if first != k {
      assert (m - {first}).Keys == m.Keys - {first};
      SumTake(m - {first}, k);
      assert (m - {k}).Keys == m.Keys - {k};
      SumTake(m - {k}, first);
      assert m - {first} - {k} == m - {k} - {first};
    }
  }

  lemma SumPut<K>(m: map<K, int>, k: K, v: int)
    ensures Sum(m[k := v]) == Sum(m) - At(m, k) + v
  {
    SumTake(m[k := v], k);
    if k in m {
      SumTake(m, k);
      assert m[k := v] - {k} == m - {k};
    } else {
      assert m[k := v] - {k} == m;
    }
  }

  lemma SumDrop<K>(m: map<K, int>, k: K)
    ensures Sum(m - {k}) == Sum(m) - At(m, k)
  {
    if k in m {
      SumTake(m, k);
    } else {
      assert m - {k} == m;
    }
  }

  lemma {:induction false} SumOfZeros<K>(m: map<K, int>)
    requires forall k :: k in m ==> m[k] == 0
    ensures Sum(m) == 0
    decreases |m|
  {
    if m != map[] {
      var k :| k in m;
      assert (m - {k}).Keys == m.Keys - {k};
      SumTake(m, k);
      SumOfZeros(m - {k});
    }
  }

  lemma {:induction false} SumNonNegative<K>(m: map<K, int>)
    requires forall k :: k in m ==> m[k] >= 0
    ensures Sum(m) >= 0
    decreases |m|
  {
    if m != map[] {
      var k :| k in m;
      assert (m - {k}).Keys == m.Keys - {k};
      SumTake(m, k);
      SumNonNegative(m - {k});
    }
  }

  /** The values of m listed by ids, added up. */
  function SumOver<K>(m: map<K, int>, ids: seq<K>): int {
    if ids == [] then 0
    else SumOver(m, ids[..|ids| - 1]) + At(m, ids[|ids| - 1])
  }

  ghost predicate Distinct<T>(s: seq<T>) {
    forall i, j :: 0 <= i < j < |s| ==> s[i] != s[j]
  }

  /** m with the listed entries set to zero. */
  ghost function ZeroOut<K>(m: map<K, int>, ids: seq<K>): map<K, int> {
    map k | k in m :: if k in ids then 0 else m[k]
  }

  lemma {:induction false} SumZeroOut<K>(m: map<K, int>, ids: seq<K>)
    requires Distinct(ids)
    ensures Sum(ZeroOut(m, ids)) == Sum(m) - SumOver(m, ids)
    decreases |ids|
  {
    if ids == [] {
      assert ZeroOut(m, ids) == m;
    } else {
      var front, last := ids[..|ids| - 1], ids[|ids| - 1];
      SumZeroOut(m, front);
      assert last !in front;
      assert forall k :: k in ids <==> k in front || k == last;
      if last in m {
        assert ZeroOut(m, ids) == ZeroOut(m, front)[last := 0];
        SumPut(ZeroOut(m, front), last, 0);
      } else {
        assert ZeroOut(m, ids) == ZeroOut(m, front);
      }
    }
  }

  lemma {:induction false} SumOverAppend<K>(m: map<K, int>, a: seq<K>, b: seq<K>)
    ensures SumOver(m, a + b) == SumOver(m, a) + SumOver(m, b)
    decreases |b|
  {
    if b == [] {
      assert a + b == a;
    } else {
      var front := b[..|b| - 1];
      SumOverAppend(m, a, front);
      assert (a + b)[..|a + b| - 1] == a + front;
    }
  }

  lemma {:induction false} SumOverSame<K>(m: map<K, int>, n: map<K, int>, ids: seq<K>)
    requires forall k :: k in ids ==> At(m, k) == At(n, k)
    ensures SumOver(m, ids) == SumOver(n, ids)
    decreases |ids|
  {
    if ids != [] {
      SumOverSame(m, n, ids[..|ids| - 1]);
    }
  }
}
