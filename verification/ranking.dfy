/**
 * The ordering behind the registry's top-N reports: a stable sort by
 * descending key, then the first N entries.
 */
module Ranking {
  /** Keys never increase from left to right. */
  predicate Descending<T>(s: seq<(T, real)>)
  {
    forall i, j :: 0 <= i < j < |s| ==> s[i].1 >= s[j].1
  }

  /** Inserts `x` after every entry whose key is at least its own, so equal keys keep their arrival order. */
  function Insert<T(==)>(s: seq<(T, real)>, x: (T, real)): (r: seq<(T, real)>)
    requires Descending(s)
    ensures Descending(r)
    ensures |r| == |s| + 1
    ensures forall y :: y in r ==> y == x || y in s
    ensures multiset(r) == multiset(s) + multiset{x}
  {
    var k := InsertPos(s, x);
    assert s == s[..k] + s[k..];
    InsertedDescending(s, x);
    s[..k] + [x] + s[k..]
  }

  /** Where Insert puts `x`: after the leading entries whose key is at least its own. */
  function InsertPos<T>(r: seq<(T, real)>, x: (T, real)): (k: nat)
    ensures k <= |r|
  {
    if r == [] then 0 else if r[0].1 >= x.1 then 1 + InsertPos(r[1..], x) else 0
  }

  /** Every entry before InsertPos has a key at least that of `x`. */
  lemma {:induction false} BeforePosNotSmaller<T>(r: seq<(T, real)>, x: (T, real), m: nat)
    requires m < InsertPos(r, x)
    ensures r[m].1 >= x.1
  {
    if m > 0 {
      BeforePosNotSmaller(r[1..], x, m - 1);
    }
  }

  /** The entry at InsertPos, if any, has a key below that of `x`. */
  lemma {:induction false} AtPosSmaller<T>(r: seq<(T, real)>, x: (T, real))
    requires InsertPos(r, x) < |r|
    ensures r[InsertPos(r, x)].1 < x.1
  {
    if r[0].1 >= x.1 {
      AtPosSmaller(r[1..], x);
    }
  }

  /** In a descending list, every entry from InsertPos on has a key below that of `x`. */
  lemma {:induction false} FromPosSmaller<T>(r: seq<(T, real)>, x: (T, real), m: nat)
    requires Descending(r) && InsertPos(r, x) <= m < |r|
    ensures r[m].1 < x.1
  {
    AtPosSmaller(r, x);
  }

  /** Putting `x` at InsertPos keeps a descending list descending. */
  lemma {:induction false} InsertedDescending<T>(s: seq<(T, real)>, x: (T, real))
    requires Descending(s)
    ensures Descending(s[..InsertPos(s, x)] + [x] + s[InsertPos(s, x)..])
  {
    var k := InsertPos(s, x);
    var r := s[..k] + [x] + s[k..];
    forall i, j | 0 <= i < j < |r| ensures r[i].1 >= r[j].1 {
      if i < k {
        BeforePosNotSmaller(s, x, i);
        if j > k { assert r[j] == s[j - 1]; }
      } else if i == k {
        FromPosSmaller(s, x, j - 1);
        assert r[j] == s[j - 1];
      } else {
        assert r[i] == s[i - 1] && r[j] == s[j - 1];
      }
    }
  }

  /** Insertion sort by descending key: each entry is inserted after all earlier ones of the same key. */
  function SortDescending<T(==)>(s: seq<(T, real)>): (r: seq<(T, real)>)
    ensures Descending(r)
    ensures multiset(r) == multiset(s)
    ensures |r| == |s|
  {
    if s == [] then []
    else
      assert s == s[..|s| - 1] + [s[|s| - 1]];
      Insert(SortDescending(s[..|s| - 1]), s[|s| - 1])
  }

  /** `limit(n)`: the first n entries, or all of them when there are fewer. */
  function Take<T>(s: seq<T>, n: nat): (r: seq<T>)
    ensures |r| == if n < |s| then n else |s|
    ensures forall i :: 0 <= i < |r| ==> r[i] == s[i]
  {
    if n < |s| then s[..n] else s
  }

  /** The n entries with the largest keys, largest first. */
  function Top<T(==)>(s: seq<(T, real)>, n: nat): (r: seq<(T, real)>)
  {
    Take(SortDescending(s), n)
  }

  /**
   * The top n are in descending order, taken from the input (no entry more
   * often than it occurs there), there are min(n, |s|) of them, and no entry
   * left out has a larger key than an entry kept.
   */
  lemma {:induction false} TopKeepsLargest<T>(s: seq<(T, real)>, n: nat)
    ensures Descending(Top(s, n))
    ensures |Top(s, n)| == if n < |s| then n else |s|
    ensures multiset(Top(s, n)) <= multiset(s)
    ensures forall e :: e in Top(s, n) ==> e in s
    ensures forall e :: e in s && e !in Top(s, n) ==> forall k :: k in Top(s, n) ==> k.1 >= e.1
  {
    var top := Top(s, n);
    TopIsSubMultiset(s, n);
    forall e | e in top ensures e in s {
      assert e in multiset(top);
    }
    forall e, k | e in s && e !in top && k in top ensures k.1 >= e.1 {
      LeftOutIsNotLarger(s, n, e, k);
    }
  }

  /** An entry the top n leave out has a key no larger than any entry they keep. */
  lemma {:induction false} LeftOutIsNotLarger<T>(s: seq<(T, real)>, n: nat, e: (T, real), k: (T, real))
    requires e in s && e !in Top(s, n) && k in Top(s, n)
    ensures k.1 >= e.1
  {
    var sorted := SortDescending(s);
    var top := Top(s, n);
    assert e in multiset(s);
    assert e in multiset(sorted);
    var j :| 0 <= j < |sorted| && sorted[j] == e;
    var i :| 0 <= i < |top| && top[i] == k;
    assert sorted[i] == k;
    assert forall m :: 0 <= m < |top| ==> top[m] == sorted[m] && top[m] in top;
  }

  /** The top n are a prefix of the sorted input, so they occur in it at most as often as in the input. */
  lemma {:induction false} TopIsSubMultiset<T>(s: seq<(T, real)>, n: nat)
    ensures multiset(Top(s, n)) <= multiset(s)
  {
    var sorted := SortDescending(s);
    var top := Top(s, n);
    assert sorted == top + sorted[|top|..];
  }

  /** No two entries share their first component. */
  predicate DistinctFirsts<T(==)>(s: seq<(T, real)>)
  {
    forall i, j :: 0 <= i < j < |s| ==> s[i].0 != s[j].0
  }

  /** An entry at two positions occurs at least twice. */
  lemma {:induction false} TwiceCounted<T>(q: seq<T>, i: nat, j: nat)
    requires i < j < |q| && q[i] == q[j]
    ensures multiset(q)[q[i]] >= 2
  {
    assert q == q[..i] + [q[i]] + q[i + 1..j] + [q[j]] + q[j + 1..];
  }

  /** Ranking a table that lists each item once lists each item at most once. */
  lemma {:induction false} TopNoRepeats<T>(s: seq<(T, real)>, n: nat)
    requires DistinctFirsts(s)
    ensures DistinctFirsts(Top(s, n))
  {
    var top := Top(s, n);
    TopKeepsLargest(s, n);
    forall i, j | 0 <= i < j < |top| ensures top[i].0 != top[j].0 {
      if top[i].0 == top[j].0 {
        assert top[i] in s && top[j] in s;
        var p :| 0 <= p < |s| && s[p] == top[i];
        var q :| 0 <= q < |s| && s[q] == top[j];
        assert p == q;
        TwiceCounted(top, i, j);
        OnceCounted(s, p);
        assert false;
      }
    }
  }

  /** In a table that lists each item once, every entry occurs once. */
  lemma {:induction false} OnceCounted<T>(s: seq<(T, real)>, p: nat)
    requires DistinctFirsts(s) && p < |s|
    ensures multiset(s)[s[p]] == 1
  {
    assert s == s[..p] + [s[p]] + s[p + 1..];
    assert s[p] !in multiset(s[..p]);
    assert s[p] !in multiset(s[p + 1..]);
  }

  /** No entry occurs twice. */
  predicate Distinct<T(==)>(s: seq<T>)
  {
    forall i, j :: 0 <= i < j < |s| ==> s[i] != s[j]
  }

  /**
   * `r` keeps the arrival order of `s`: of two entries of `s` where the earlier
   * one's key is at least the later one's, the earlier one comes first in `r`.
   */
  predicate Stable<T(==)>(s: seq<(T, real)>, r: seq<(T, real)>)
  {
    forall i, j, a, b {:trigger r[a], r[b], s[i], s[j]} ::
      (0 <= i < j < |s| && s[i].1 >= s[j].1 && 0 <= a < |r| && 0 <= b < |r| && r[a] == s[i] && r[b] == s[j]) ==> a < b
  }

  /** The sort is stable: equal keys keep the order they had in the input. */
  lemma {:induction false} SortIsStable<T>(s: seq<(T, real)>)
    requires Distinct(s)
    ensures Stable(s, SortDescending(s))
  {
    if s != [] {
      var p, x := s[..|s| - 1], s[|s| - 1];
      LastIsNew(s, p);
      SortIsStable(p);
      InsertIsStable(s, SortDescending(p));
    }
  }

  /** In a list without repeats, the prefix has none either and does not hold the last entry. */
  lemma {:induction false} LastIsNew<T>(s: seq<T>, p: seq<T>)
    requires Distinct(s) && s != [] && p == s[..|s| - 1]
    ensures Distinct(p)
    ensures forall m :: 0 <= m < |s| - 1 ==> s[m] != s[|s| - 1]
  {
  }

  /** Inserting a new last entry into a stable sort of the others gives a stable sort of all. */
  lemma {:induction false} InsertIsStable<T>(s: seq<(T, real)>, rp: seq<(T, real)>)
    requires s != [] && Descending(rp)
    requires Stable(s[..|s| - 1], rp) && multiset(rp) == multiset(s[..|s| - 1])
    requires forall m :: 0 <= m < |s| - 1 ==> s[m] != s[|s| - 1]
    ensures Stable(s, Insert(rp, s[|s| - 1]))
  {
    var p, x := s[..|s| - 1], s[|s| - 1];
    assert s == p + [x];
    assert forall m :: 0 <= m < |p| ==> p[m] != x;
    assert x !in p;
    assert x !in multiset(rp);
    var r := Insert(rp, x);
    forall i, j, a, b | 0 <= i < j < |s| && s[i].1 >= s[j].1 && 0 <= a < |r| && 0 <= b < |r|
                        && r[a] == s[i] && r[b] == s[j]
      ensures a < b
    {
      InsertKeepsOrder(p, x, rp, i, j, a, b);
    }
  }

  /** One step of SortIsStable: inserting the last entry keeps the order of every pair. */
  lemma {:induction false} InsertKeepsOrder<T>(p: seq<(T, real)>, x: (T, real), rp: seq<(T, real)>, i: nat, j: nat, a: nat, b: nat)
    requires Descending(rp) && Stable(p, rp) && x !in rp
    requires forall m :: 0 <= m < |p| ==> p[m] != x
    requires i < j <= |p| && a < |rp| + 1 && b < |rp| + 1
    requires (p + [x])[i].1 >= (p + [x])[j].1
    requires Insert(rp, x)[a] == (p + [x])[i] && Insert(rp, x)[b] == (p + [x])[j]
    ensures a < b
  {
    var r, k := Insert(rp, x), InsertPos(rp, x);
    assert r[k] == x;
    assert forall m :: 0 <= m < k ==> r[m] == rp[m];
    assert forall m :: k < m <= |rp| ==> r[m] == rp[m - 1];
    assert (p + [x])[i] == p[i];
    if j < |p| {
      assert (p + [x])[j] == p[j];
      var a' := if a < k then a else a - 1;
      var b' := if b < k then b else b - 1;
      assert rp[a'] == p[i] && rp[b'] == p[j];
    } else {
      assert b == k;
      if a > k {
        FromPosSmaller(rp, x, a - 1);
      }
    }
  }

  /**
   * For a table listing each item once, Java's stable sort decides ties: kept
   * entries keep the list order of equal keys, and an entry ranked at least as
   * high as a kept one and listed before it is kept too.
   */
  lemma {:induction false} TopIsStable<T>(s: seq<(T, real)>, n: nat)
    requires DistinctFirsts(s)
    ensures Stable(s, Top(s, n))
    ensures forall i, j :: 0 <= i < j < |s| && s[i].1 >= s[j].1 && s[j] in Top(s, n) ==> s[i] in Top(s, n)
  {
    assert Distinct(s);
    SortIsStable(s);
    var sorted, top := SortDescending(s), Top(s, n);
    assert top == sorted[..|top|];
    PrefixIsStable(s, sorted, |top|);
    PrefixKeepsTies(s, sorted, |top|);
  }

  /** A prefix of a stable sort keeps the arrival order too. */
  lemma {:induction false} PrefixIsStable<T>(s: seq<(T, real)>, sorted: seq<(T, real)>, k: nat)
    requires Stable(s, sorted) && k <= |sorted|
    ensures Stable(s, sorted[..k])
  {
    var top := sorted[..k];
    forall i, j, a, b | 0 <= i < j < |s| && s[i].1 >= s[j].1 && 0 <= a < |top| && 0 <= b < |top|
                        && top[a] == s[i] && top[b] == s[j]
      ensures a < b
    {
      assert sorted[a] == s[i] && sorted[b] == s[j];
    }
  }

  /**
   * Cutting a stable sort after k entries: an entry listed before a kept one,
   * with a key at least as large, is kept too.
   */
  lemma {:induction false} PrefixKeepsTies<T>(s: seq<(T, real)>, sorted: seq<(T, real)>, k: nat)
    requires Stable(s, sorted) && multiset(sorted) == multiset(s) && k <= |sorted|
    ensures forall i, j :: 0 <= i < j < |s| && s[i].1 >= s[j].1 && s[j] in sorted[..k] ==> s[i] in sorted[..k]
  {
    forall i, j | 0 <= i < j < |s| && s[i].1 >= s[j].1 && s[j] in sorted[..k] ensures s[i] in sorted[..k] {
      PrefixKeepsEarlier(s, sorted, k, i, j);
    }
  }

  /** One pair of PrefixKeepsTies. */
  lemma {:induction false} PrefixKeepsEarlier<T>(s: seq<(T, real)>, sorted: seq<(T, real)>, k: nat, i: nat, j: nat)
    requires Stable(s, sorted) && multiset(sorted) == multiset(s) && k <= |sorted|
    requires i < j < |s| && s[i].1 >= s[j].1 && s[j] in sorted[..k]
    ensures s[i] in sorted[..k]
  {
    assert s[i] in multiset(s);
    assert s[i] in multiset(sorted);
    var a :| 0 <= a < |sorted| && sorted[a] == s[i];
    var b :| 0 <= b < k && sorted[..k][b] == s[j];
    assert sorted[b] == s[j];
    assert a < b;
    assert sorted[..k][a] == s[i];
  }
}
