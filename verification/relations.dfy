/** Keyed relations: putting rows in order, later rows replacing earlier ones with the
    same key (the :put of src/homeops_ai/loader.py:25-59 over src/homeops_ai/schema.py). */
module Relations {
  import opened Wrappers

  function PutAll<K, V>(rows: seq<(K, V)>): map<K, V> {
    if rows == [] then map[]
    else PutAll(rows[..|rows| - 1])[rows[|rows| - 1].0 := rows[|rows| - 1].1]
  }

  /** No two rows share a key. */
  predicate Distinct<K(==), V>(rows: seq<(K, V)>) {
    forall i, j :: 0 <= i < j < |rows| ==> rows[i].0 != rows[j].0
  }

  function KeysOf<K, V>(rows: seq<(K, V)>): set<K> {
    set i | 0 <= i < |rows| :: rows[i].0
  }

  lemma {:induction false} PutAllKeys<K, V>(rows: seq<(K, V)>)
    ensures PutAll(rows).Keys == KeysOf(rows)
  {
    if rows != [] {
      var n := |rows| - 1;
      PutAllKeys(rows[..n]);
      assert KeysOf(rows) == KeysOf(rows[..n]) + {rows[n].0};
    }
  }

  /** With distinct keys every row is found again. */
  lemma {:induction false} PutAllFinds<K, V>(rows: seq<(K, V)>, i: nat)
    requires Distinct(rows) && i < |rows|
    ensures rows[i].0 in PutAll(rows) && PutAll(rows)[rows[i].0] == rows[i].1
  {
    var n := |rows| - 1;
    if i < n {
      PutAllFinds(rows[..n], i);
      assert rows[..n][i] == rows[i];
    }
  }

  /** Whatever is found was put. */
  lemma {:induction false} PutAllHolds<K, V>(rows: seq<(K, V)>, k: K)
    requires k in PutAll(rows)
    ensures (k, PutAll(rows)[k]) in rows
  {
    var n := |rows| - 1;
    if rows[n].0 != k {
      PutAllHolds(rows[..n], k);
    } else {
      assert rows[n] == (k, PutAll(rows)[k]);
    }
  }

  /** A last row leaves keys distinct exactly when its own is new. */
  lemma DistinctStep<K, V>(rows: seq<(K, V)>)
    requires rows != []
    ensures var n := |rows| - 1;
            Distinct(rows) <==> Distinct(rows[..n]) && rows[n].0 !in KeysOf(rows[..n])
  {
    var n := |rows| - 1;
    var before := rows[..n];
    if Distinct(rows) {
      forall i, j | 0 <= i < j < n ensures before[i].0 != before[j].0 { assert rows[i].0 != rows[j].0; }
    } else {
      var i, j :| 0 <= i < j < |rows| && rows[i].0 == rows[j].0;
      assert before[i] == rows[i];
      if j < n { assert before[j] == rows[j]; }
    }
  }

  /** A relation has as many rows as were put exactly when no key was put twice. */
  lemma {:induction false} PutAllCounts<K, V>(rows: seq<(K, V)>)
    ensures |PutAll(rows)| <= |rows|
    ensures |PutAll(rows)| == |rows| <==> Distinct(rows)
  {
    if rows != [] {
      var n := |rows| - 1;
      PutAllCounts(rows[..n]);
      DistinctStep(rows);
      PutAllKeys(rows[..n]);
      PutCounts(PutAll(rows[..n]), rows[n].0, rows[n].1);
    }
  }

  lemma PutCounts<K, V>(m: map<K, V>, k: K, v: V)
    ensures |m[k := v]| == |m| + if k in m then 0 else 1
  {
    assert m[k := v].Keys == m.Keys + {k};
    assert |m[k := v]| == |m[k := v].Keys| && |m| == |m.Keys|;
  }

  /** Every row converted, or nothing if one of them cannot be. */
  function Convert<R, S>(rows: seq<R>, convert: R -> Option<S>): Option<seq<S>> {
    if rows == [] then Some([])
    else
      var before, last := Convert(rows[..|rows| - 1], convert), convert(rows[|rows| - 1]);
      if before.Some? && last.Some? then Some(before.value + [last.value]) else None
  }

  lemma {:induction false} ConvertJoins<R, S>(a: seq<R>, b: seq<R>, convert: R -> Option<S>)
    requires Convert(a, convert).Some? && Convert(b, convert).Some?
    ensures Convert(a + b, convert) == Some(Convert(a, convert).value + Convert(b, convert).value)
  {
    if b == [] {
      assert a + b == a && Convert(a, convert).value + [] == Convert(a, convert).value;
    } else {
      var n := |b| - 1;
      ConvertJoins(a, b[..n], convert);
      assert (a + b)[..|a + b| - 1] == a + b[..n] && (a + b)[|a + b| - 1] == b[n];
      var x, y, last := Convert(a, convert).value, Convert(b[..n], convert).value, convert(b[n]).value;
      assert x + (y + [last]) == (x + y) + [last];
    }
  }

  lemma {:induction false} ConvertIs<R, S>(rows: seq<R>, convert: R -> Option<S>, converted: seq<S>)
    requires |converted| == |rows| && forall i :: 0 <= i < |rows| ==> convert(rows[i]) == Some(converted[i])
    ensures Convert(rows, convert) == Some(converted)
  {
    if rows != [] {
      var n := |rows| - 1;
      ConvertIs(rows[..n], convert, converted[..n]);
      assert converted == converted[..n] + [converted[n]];
    }
  }

  lemma {:induction false} ConvertFails<R, S>(rows: seq<R>, convert: R -> Option<S>, row: R)
    requires row in rows && convert(row).None?
    ensures Convert(rows, convert).None?
  {
    var n := |rows| - 1;
    if row in rows[..n] { ConvertFails(rows[..n], convert, row); }
  }

  /** How many rows satisfy a predicate. */
  function CountIf<R>(rows: seq<R>, p: R -> bool): nat {
    if rows == [] then 0
    else CountIf(rows[..|rows| - 1], p) + if p(rows[|rows| - 1]) then 1 else 0
  }

  function KeysWith<K, V>(m: map<K, V>, p: ((K, V)) -> bool): set<K> {
    set k | k in m && p((k, m[k]))
  }

  lemma NewKeyWith<K, V>(m: map<K, V>, k: K, v: V, p: ((K, V)) -> bool)
    requires k !in m
    ensures KeysWith(m[k := v], p) == KeysWith(m, p) + if p((k, v)) then {k} else {}
  {
  }

  /** With distinct keys a relation holds as many rows of a kind as were put. */
  lemma {:induction false} PutAllCountsIf<K, V>(rows: seq<(K, V)>, p: ((K, V)) -> bool)
    requires Distinct(rows)
    ensures |KeysWith(PutAll(rows), p)| == CountIf(rows, p)
  {
    if rows != [] {
      var n := |rows| - 1;
      DistinctStep(rows);
      PutAllCountsIf(rows[..n], p);
      PutAllKeys(rows[..n]);
      NewKeyWith(PutAll(rows[..n]), rows[n].0, rows[n].1, p);
      assert rows[n] == (rows[n].0, rows[n].1);
    }
  }
}
