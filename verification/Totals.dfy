/** Sums over finite maps and sequences, for measures. */
module Totals {
  /** The sum of `f` over the values of `m`. */
  ghost function Total<K, T>(m: map<K, T>, f: T -> nat): nat
    decreases |m|
  {
    if |m| == 0 then 0 else var k :| k in m; f(m[k]) + Total(m - {k}, f)
  }

  /** The key `Total` happens to take first. */
  lemma TotalFirst<K, T>(m: map<K, T>, f: T -> nat) returns (j: K)
    requires |m| != 0
    ensures j in m && Total(m, f) == f(m[j]) + Total(m - {j}, f)
  {
    j :| j in m && Total(m, f) == f(m[j]) + Total(m - {j}, f);
  }

  lemma {:induction false} TotalPick<K, T>(m: map<K, T>, f: T -> nat, k: K)
    requires k in m
    ensures Total(m, f) == f(m[k]) + Total(m - {k}, f)
    decreases |m|
  {
    assert k in m.Keys && |m| == |m.Keys|;
    var j := TotalFirst(m, f);
    if j != k {
      var both := m - {j, k};
      assert m - {j} - {k} == both && m - {k} - {j} == both;
      assert (m - {j}).Keys == m.Keys - {j} && (m - {k}).Keys == m.Keys - {k};
      TotalPick(m - {j}, f, k);
      TotalPick(m - {k}, f, j);
    }
  }

  lemma TotalPut<K, T>(m: map<K, T>, f: T -> nat, k: K, v: T)
    ensures Total(m[k := v], f) + (if k in m then f(m[k]) else 0) == Total(m, f) + f(v)
  {
    TotalPick(m[k := v], f, k);
    assert m[k := v] - {k} == m - {k};
    if k in m { TotalPick(m, f, k); } else { assert m - {k} == m; }
  }

  lemma {:induction false} TotalSame<K, T>(m: map<K, T>, n: map<K, T>, f: T -> nat)
    requires m.Keys == n.Keys && forall k :: k in m ==> f(m[k]) == f(n[k])
    ensures Total(m, f) == Total(n, f)
    decreases |m|
  {
    if |m| == 0 {
      assert |n.Keys| == |m.Keys|;
    } else {
      var k :| k in m;
      TotalPick(m, f, k);
      TotalPick(n, f, k);
      TotalSame(m - {k}, n - {k}, f);
    }
  }

  function SeqTotal<T>(s: seq<T>, f: T -> nat): nat {
    if s == [] then 0 else f(s[0]) + SeqTotal(s[1..], f)
  }

  lemma {:induction false} SeqTotalSnoc<T>(s: seq<T>, f: T -> nat, x: T)
    ensures SeqTotal(s + [x], f) == SeqTotal(s, f) + f(x)
  {
    if s == [] {
      assert s + [x] == [x] && [x][1..] == [];
    } else {
      assert (s + [x])[1..] == s[1..] + [x];
      SeqTotalSnoc(s[1..], f, x);
    }
  }
}
