/** Totals over the session table and over a session's shard and attempt vectors.

Every aggregate the engine keeps as a running counter is specified here as a
plain scan: a total of some nat-valued measure over all the entries.
 */
module Sums {

  predicate NoDuplicates<T(==)>(s: seq<T>) {
    forall i, j :: 0 <= i < j < |s| ==> s[i] != s[j]
  }

  /** Total of `f` over all values of a map. */
  ghost function Total<K(!new), V(!new)>(m: map<K, V>, f: V -> nat): nat
    decreases |m|
  {
    if m == map[] then 0
    else
      var k :| k in m;
      f(m[k]) + Total(m - {k}, f)
  }

  lemma {:induction false} TotalRemove<K(!new), V(!new)>(m: map<K, V>, k: K, f: V -> nat)
    requires k in m
    ensures Total(m, f) == f(m[k]) + Total(m - {k}, f)
    decreases |m|
  {
    var j :| j in m && Total(m, f) == f(m[j]) + Total(m - {j}, f);
    if j != k {
      TotalRemove(m - {j}, k, f);
      assert (m - {j}) - {k} == (m - {k}) - {j};
      TotalRemove(m - {k}, j, f);
    }
  }

  lemma TotalInsert<K(!new), V(!new)>(m: map<K, V>, k: K, v: V, f: V -> nat)
    requires k !in m
    ensures Total(m[k := v], f) == Total(m, f) + f(v)
  {
    TotalRemove(m[k := v], k, f);
    assert m[k := v] - {k} == m;
  }

  lemma TotalReplace<K(!new), V(!new)>(m: map<K, V>, k: K, v: V, f: V -> nat)
    requires k in m
    ensures Total(m[k := v], f) + f(m[k]) == Total(m, f) + f(v)
    ensures Total(m, f) >= f(m[k])
  {
    TotalRemove(m[k := v], k, f);
    TotalRemove(m, k, f);
    assert m[k := v] - {k} == m - {k};
  }

  /** Two tables that measure alike entry by entry have the same total. */
  lemma {:induction false} TotalAlike<K(!new), V(!new)>(m: map<K, V>, n: map<K, V>, f: V -> nat, g: V -> nat)
    requires m.Keys == n.Keys
    requires forall k :: k in m ==> f(m[k]) == g(n[k])
    ensures Total(m, f) == Total(n, g)
    decreases |m|
  {
    if m == map[] {
      assert n == map[];
    } else {
      var k :| k in m;
      TotalRemove(m, k, f);
      TotalRemove(n, k, g);
      TotalAlike(m - {k}, n - {k}, f, g);
    }
  }

  /** A measure that splits entry by entry splits in total. */
  lemma {:induction false} TotalSplit<K(!new), V(!new)>(n: map<K, V>, m: map<K, V>, f: V -> nat, g: V -> nat, h: V -> nat)
    requires m.Keys == n.Keys
    requires forall k :: k in m ==> f(n[k]) == g(m[k]) + h(m[k])
    ensures Total(n, f) == Total(m, g) + Total(m, h)
    decreases |m|
  {
    if m == map[] {
      assert n == map[];
    } else {
      var k :| k in m;
      TotalRemove(n, k, f);
      TotalRemove(m, k, g);
      TotalRemove(m, k, h);
      TotalSplit(n - {k}, m - {k}, f, g, h);
    }
  }

  lemma {:induction false} TotalZero<K(!new), V(!new)>(m: map<K, V>, f: V -> nat)
    requires forall k :: k in m ==> f(m[k]) == 0
    ensures Total(m, f) == 0
    decreases |m|
  {
    if m != map[] {
      var k :| k in m;
      TotalRemove(m, k, f);
      TotalZero(m - {k}, f);
    }
  }

  lemma {:induction false} TotalPositive<K(!new), V(!new)>(m: map<K, V>, f: V -> nat) returns (k: K)
    requires Total(m, f) > 0
    ensures k in m && f(m[k]) > 0
    decreases |m|
  {
    k :| k in m && Total(m, f) == f(m[k]) + Total(m - {k}, f);
    if f(m[k]) == 0 {
      k := TotalPositive(m - {k}, f);
    }
  }

  lemma {:induction false} TotalSubmap<K(!new), V(!new)>(m: map<K, V>, n: map<K, V>, f: V -> nat)
    requires n.Keys <= m.Keys
    requires forall k :: k in n ==> f(n[k]) <= f(m[k])
    ensures Total(n, f) <= Total(m, f)
    decreases |m|
  {
    if m != map[] {
      var k := SomeKey(m);
      TotalRemove(m, k, f);
      if k in n { TotalRemove(n, k, f); } else { assert n - {k} == n; }
      TotalSubmap(m - {k}, n - {k}, f);
    } else {
      assert n == map[];
    }
  }

  lemma SomeKey<K(!new), V(!new)>(m: map<K, V>) returns (k: K)
    requires m != map[]
    ensures k in m
  {
    k :| k in m;
  }

  /** Total of `f` over a sequence. */
  function SeqTotal<T>(s: seq<T>, f: T -> nat): nat {
    if s == [] then 0 else f(s[0]) + SeqTotal(s[1..], f)
  }

  lemma {:induction false} SeqTotalReplace<T>(s: seq<T>, i: nat, v: T, f: T -> nat)
    requires i < |s|
    ensures SeqTotal(s[i := v], f) + f(s[i]) == SeqTotal(s, f) + f(v)
    ensures SeqTotal(s, f) >= f(s[i])
  {
    if i == 0 {
      assert s[0 := v][1..] == s[1..];
    } else {
      assert s[i := v][1..] == s[1..][i - 1 := v];
      SeqTotalReplace(s[1..], i - 1, v, f);
    }
  }

  lemma {:induction false} SeqTotalAppend<T>(s: seq<T>, v: T, f: T -> nat)
    ensures SeqTotal(s + [v], f) == SeqTotal(s, f) + f(v)
  {
    if s == [] {
      assert s + [v] == [v];
    } else {
      assert (s + [v])[1..] == s[1..] + [v];
      SeqTotalAppend(s[1..], v, f);
    }
  }

  lemma {:induction false} SeqTotalAlike<S, T>(s: seq<S>, t: seq<T>, f: S -> nat, g: T -> nat)
    requires |s| == |t|
    requires forall i :: 0 <= i < |s| ==> f(s[i]) == g(t[i])
    ensures SeqTotal(s, f) == SeqTotal(t, g)
  {
    if s != [] {
      SeqTotalAlike(s[1..], t[1..], f, g);
    }
  }

  /** A pointwise smaller measure has the smaller total, and equal totals force equal entries. */
  lemma {:induction false} SeqTotalBelow<S, T>(s: seq<S>, t: seq<T>, f: S -> nat, g: T -> nat)
    requires |s| == |t|
    requires forall i :: 0 <= i < |s| ==> f(s[i]) <= g(t[i])
    ensures SeqTotal(s, f) <= SeqTotal(t, g)
    ensures SeqTotal(s, f) == SeqTotal(t, g) ==> forall i :: 0 <= i < |s| ==> f(s[i]) == g(t[i])
  {
    if s != [] {
      SeqTotalBelow(s[1..], t[1..], f, g);
      if SeqTotal(s, f) == SeqTotal(t, g) {
        forall i | 0 <= i < |s| ensures f(s[i]) == g(t[i]) {
          if i > 0 { assert s[i] == s[1..][i - 1] && t[i] == t[1..][i - 1]; }
        }
      }
    }
  }

  lemma {:induction false} SeqTotalSplit<T>(s: seq<T>, n: nat, f: T -> nat)
    requires n <= |s|
    ensures SeqTotal(s[..n], f) + SeqTotal(s[n..], f) == SeqTotal(s, f)
  {
    if n > 0 {
      assert s[..n][1..] == s[1..][..n - 1] && s[n..] == s[1..][n - 1..];
      SeqTotalSplit(s[1..], n - 1, f);
    }
  }
}
