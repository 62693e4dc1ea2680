/** The result order and the `LIMIT`/`OFFSET` window of the two scoped queries
    `... ORDER BY timestamp DESC LIMIT :limit OFFSET :offset`.

    SQL leaves rows with equal timestamps in no particular order; the model
    fixes one: ties come out in ascending order of their primary key, compared
    character by character (a proper prefix first). */
module Paging {
  import opened Kotlin

  /** Strict lexicographic order on primary keys. */
  predicate IdBefore(a: string, b: string)
    decreases |a|
  {
    |b| > 0 && (|a| == 0 || a[0] < b[0] || (a[0] == b[0] && IdBefore(a[1..], b[1..])))
  }

  lemma {:induction false} IdBeforeIrreflexive(a: string)
    ensures !IdBefore(a, a)
    decreases |a|
  {
    if |a| > 0 { IdBeforeIrreflexive(a[1..]); }
  }

  lemma {:induction false} IdBeforeTransitive(a: string, b: string, c: string)
    requires IdBefore(a, b) && IdBefore(b, c)
    ensures IdBefore(a, c)
    decreases |a|
  {
    if |a| > 0 && a[0] == b[0] && b[0] == c[0] {
      IdBeforeTransitive(a[1..], b[1..], c[1..]);
    }
  }

  /** Any two different keys are ordered one way or the other. */
  lemma {:induction false} IdBeforeTotal(a: string, b: string)
    requires a != b
    ensures IdBefore(a, b) || IdBefore(b, a)
    decreases |a|
  {
    if |a| > 0 && |b| > 0 && a[0] == b[0] {
      assert a == [a[0]] + a[1..] && b == [b[0]] + b[1..];
      IdBeforeTotal(a[1..], b[1..]);
    }
  }

  /** Key `a` comes before key `b` in `ORDER BY timestamp DESC`, ties broken by key. */
  predicate RankBefore(ts: map<string, int>, a: string, b: string)
    requires a in ts && b in ts
  {
    ts[a] > ts[b] || (ts[a] == ts[b] && IdBefore(a, b))
  }

  /** `k` comes before every other key of `ts`. */
  predicate IsFirst(ts: map<string, int>, k: string)
  {
    k in ts && forall j :: j in ts && j != k ==> RankBefore(ts, k, j)
  }

  lemma {:induction false} FirstExists(ts: map<string, int>)
    requires ts != map[]
    ensures exists k :: IsFirst(ts, k)
    decreases ts.Keys
  {
    var j :| j in ts;
    var rest := ts - {j};
    if rest == map[] {
      assert forall i :: i in ts && i != j ==> i in rest;
      assert IsFirst(ts, j);
    } else {
      FirstExists(rest);
      var k :| IsFirst(rest, k);
      IdBeforeTotal(j, k);
      if RankBefore(ts, j, k) {
        forall i | i in ts && i != j ensures RankBefore(ts, j, i) {
          if i != k {
            assert i in rest && rest[i] == ts[i] && rest[k] == ts[k];
            assert RankBefore(rest, k, i);
            assert RankBefore(ts, k, i);
            if ts[j] == ts[k] && ts[k] == ts[i] { IdBeforeTransitive(j, k, i); }
          }
        }
        assert IsFirst(ts, j);
      } else {
        assert ts[j] <= ts[k];
        assert RankBefore(ts, k, j);
        forall i | i in rest && i != k ensures RankBefore(ts, k, i) {
          assert rest[i] == ts[i] && rest[k] == ts[k];
          assert RankBefore(rest, k, i);
        }
        assert IsFirst(ts, k);
      }
    }
  }

  /** At most one key comes first. */
  lemma FirstUnique(ts: map<string, int>)
    ensures forall a, b :: IsFirst(ts, a) && IsFirst(ts, b) ==> a == b
  {
    forall a, b | IsFirst(ts, a) && IsFirst(ts, b) ensures a == b {
      if a != b {
        assert RankBefore(ts, a, b) && RankBefore(ts, b, a);
        IdBeforeTransitive(a, b, a);
        IdBeforeIrreflexive(a);
      }
    }
  }

  /** The keys of `ts` in result order: the first key, then the order of the rest. */
  function OrderedKeys(ts: map<string, int>): (r: seq<string>)
    ensures forall i :: 0 <= i < |r| ==> r[i] in ts
    ensures |r| == |ts.Keys|
    decreases ts.Keys
  {
    if ts == map[] then []
    else
      FirstExists(ts);
      FirstUnique(ts);
      var k :| IsFirst(ts, k);
      var rest := ts - {k};
      assert rest.Keys == ts.Keys - {k};
      [k] + OrderedKeys(rest)
  }

  /** Every key of `ts` is in OrderedKeys(ts). */
  lemma {:induction false} OrderedKeysComplete(ts: map<string, int>, k: string)
    requires k in ts
    ensures k in OrderedKeys(ts)
    decreases ts.Keys
  {
    var r := OrderedKeys(ts);
    var rest := ts - {r[0]};
    assert rest.Keys == ts.Keys - {r[0]};
    assert r[1..] == OrderedKeys(rest);
    if k != r[0] {
      OrderedKeysComplete(rest, k);
      assert k in r[1..];
    }
  }

  /** Keys in result order are ranked: each comes before every later one. */
  lemma {:induction false} OrderedKeysRanked(ts: map<string, int>)
    ensures var r := OrderedKeys(ts);
      forall i, j :: 0 <= i < j < |r| ==> RankBefore(ts, r[i], r[j])
    decreases ts.Keys
  {
    if ts != map[] {
      var r := OrderedKeys(ts);
      var k := r[0];
      assert IsFirst(ts, k);
      var rest := ts - {k};
      assert rest.Keys == ts.Keys - {k};
      assert r[1..] == OrderedKeys(rest);
      OrderedKeysRanked(rest);
      forall i, j | 0 <= i < j < |r| ensures RankBefore(ts, r[i], r[j]) {
        assert r[j] == r[1..][j - 1] && r[j] in rest;
        if i > 0 {
          assert r[i] == r[1..][i - 1] && r[i] in rest;
          assert RankBefore(rest, r[i], r[j]);
        }
      }
    }
  }

  /** Keys in result order are distinct, their timestamps never increase, and
      equal timestamps come in ascending key order. */
  lemma OrderedKeysSorted(ts: map<string, int>, i: nat, j: nat)
    requires i < j < |OrderedKeys(ts)|
    ensures var r := OrderedKeys(ts);
      && r[i] != r[j]
      && ts[r[i]] >= ts[r[j]]
      && (ts[r[i]] == ts[r[j]] ==> IdBefore(r[i], r[j]))
  {
    var r := OrderedKeys(ts);
    OrderedKeysRanked(ts);
    assert RankBefore(ts, r[i], r[j]);
    if r[i] == r[j] { IdBeforeIrreflexive(r[i]); }
  }

  /** The offset the repositories ask for page `page`: `page * size`, computed
      in 32-bit arithmetic. */
  function PageOffset(page: int32, size: int32): (r: int32)
    ensures page == 0 ==> r == 0
    ensures IntMin <= page as int * size as int <= IntMax ==> r as int == page as int * size as int
  {
    Wrap32(page as int * size as int)
  }

  /** The first row SQLite returns: a negative OFFSET counts as no offset. */
  function WindowStart(offset: int): nat
  {
    if offset < 0 then 0 else offset
  }

  /** The number of rows `LIMIT limit OFFSET offset` keeps of `n`; a negative
      LIMIT means no limit. */
  function PageLength(n: nat, limit: int, offset: int): (len: nat)
    ensures len <= n
    ensures limit >= 0 ==> len <= limit
    ensures len > 0 ==> WindowStart(offset) + len <= n
    ensures len == 0 <==> limit == 0 || WindowStart(offset) >= n
  {
    var available := if WindowStart(offset) < n then n - WindowStart(offset) else 0;
    if limit < 0 || available <= limit then available else limit
  }

  /** `LIMIT limit OFFSET offset` applied to rows in result order: the slice
      starting at the offset, of length PageLength. */
  function Window<T>(s: seq<T>, limit: int, offset: int): (r: seq<T>)
    ensures |r| == PageLength(|s|, limit, offset)
    ensures forall i :: 0 <= i < |r| ==> r[i] == s[WindowStart(offset) + i]
  {
    var from := if WindowStart(offset) <= |s| then WindowStart(offset) else |s|;
    s[from..from + PageLength(|s|, limit, offset)]
  }

  /** Two rows of a window are the rows of the full result at the same
      positions shifted by the offset, in the same order. */
  lemma WindowPair<T>(s: seq<T>, limit: int, offset: int, i: nat, j: nat)
    requires i < j < |Window(s, limit, offset)|
    ensures WindowStart(offset) + i < WindowStart(offset) + j < |s|
    ensures Window(s, limit, offset)[i] == s[WindowStart(offset) + i]
    ensures Window(s, limit, offset)[j] == s[WindowStart(offset) + j]
  {
  }

  /** Rows in result order: distinct keys, timestamps never increasing, equal
      timestamps in ascending key order. */
  ghost predicate Ranked<T>(rows: seq<T>, time: T -> int, key: T -> string)
  {
    forall i, j :: 0 <= i < j < |rows| ==>
      && key(rows[i]) != key(rows[j])
      && time(rows[i]) >= time(rows[j])
      && (time(rows[i]) == time(rows[j]) ==> IdBefore(key(rows[i]), key(rows[j])))
  }

  /** A window of rows in result order is in result order. */
  lemma WindowRanked<T>(rows: seq<T>, time: T -> int, key: T -> string, limit: int, offset: int)
    requires Ranked(rows, time, key)
    ensures Ranked(Window(rows, limit, offset), time, key)
  {
    var w := Window(rows, limit, offset);
    forall i, j | 0 <= i < j < |w|
      ensures key(w[i]) != key(w[j]) && time(w[i]) >= time(w[j])
      ensures time(w[i]) == time(w[j]) ==> IdBefore(key(w[i]), key(w[j]))
    {
      WindowPair(rows, limit, offset, i, j);
    }
  }
}
