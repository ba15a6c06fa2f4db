/** Sums of a weight over the elements of a sequence and over the values of a map. */
module Sums {

  ghost function SumSeq<T>(s: seq<T>, f: T -> nat): nat {
    if s == [] then 0 else f(s[0]) + SumSeq(s[1..], f)
  }

  lemma {:induction false} SumSeqConcat<T>(a: seq<T>, b: seq<T>, f: T -> nat)
    ensures SumSeq(a + b, f) == SumSeq(a, f) + SumSeq(b, f)
  {
    if a == [] {
      assert a + b == b;
    } else {
      assert (a + b)[1..] == a[1..] + b;
      SumSeqConcat(a[1..], b, f);
    }
  }

  lemma {:induction false} SumSeqUpdate<T>(s: seq<T>, i: nat, x: T, f: T -> nat)
    requires i < |s|
    ensures SumSeq(s[i := x], f) + f(s[i]) == SumSeq(s, f) + f(x)
  {
    if i == 0 {
      assert s[0 := x][1..] == s[1..];
    } else {
      assert s[i := x][1..] == s[1..][i - 1 := x];
      SumSeqUpdate(s[1..], i - 1, x, f);
    }
  }

  lemma {:induction false} SumSeqAt<T>(s: seq<T>, i: nat, f: T -> nat)
    requires i < |s|
    ensures f(s[i]) <= SumSeq(s, f)
  {
    if 0 < i {
      SumSeqAt(s[1..], i - 1, f);
    }
  }

  lemma {:induction false} SumSeqBound<T>(s: seq<T>, f: T -> nat, bound: nat)
    requires forall x :: x in s ==> f(x) <= bound
    ensures SumSeq(s, f) <= |s| * bound
  {
    if s != [] {
      SumSeqBound(s[1..], f, bound);
      assert |s| * bound == bound + (|s| - 1) * bound;
    }
  }

  lemma {:induction false} SumSeqMonotone<T>(s: seq<T>, f: T -> nat, g: T -> nat)
    requires forall x :: x in s ==> f(x) <= g(x)
    ensures SumSeq(s, f) <= SumSeq(s, g)
  {
    if s != [] {
      SumSeqMonotone(s[1..], f, g);
    }
  }

  lemma {:induction false} SumSeqAdd<T>(s: seq<T>, f: T -> nat, g: T -> nat, h: T -> nat)
    requires forall x :: x in s ==> f(x) == g(x) + h(x)
    ensures SumSeq(s, f) == SumSeq(s, g) + SumSeq(s, h)
  {
    if s != [] {
      SumSeqAdd(s[1..], f, g, h);
    }
  }

  ghost function SumMap<K, V>(m: map<K, V>, f: V -> nat): nat {
    if m == map[] then 0 else
      var k :| k in m;
      f(m[k]) + SumMap(m - {k}, f)
  }

  /** The sum does not depend on the order in which the keys are taken. */
  lemma {:induction false} SumMapTake<K, V>(m: map<K, V>, k: K, f: V -> nat)
    requires k in m
    ensures SumMap(m, f) == f(m[k]) + SumMap(m - {k}, f)
    decreases |m|
  {
    var j :| j in m && SumMap(m, f) == f(m[j]) + SumMap(m - {j}, f);
    if j != k {
      SumMapTake(m - {j}, k, f);
      SumMapTake(m - {k}, j, f);
      assert m - {j} - {k} == m - {k} - {j};
    }
  }

  lemma SumMapPut<K, V>(m: map<K, V>, k: K, v: V, f: V -> nat)
    ensures SumMap(m[k := v], f) == f(v) + SumMap(m - {k}, f)
    ensures k !in m ==> m - {k} == m
  {
    SumMapTake(m[k := v], k, f);
    assert m[k := v] - {k} == m - {k};
  }
}
