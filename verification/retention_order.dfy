/** Which additional deployments are kept: the first `k` by newest effective time, then
    by ID (src/homeops_ai/retention.py:1327-1340). */
module RetentionOrder {
  import opened Ordering

  /** A candidate's sort key; `effective` is in seconds. */
  type Times = map<string, int>

  predicate Before(t: Times, a: string, b: string)
    requires a in t && b in t
  {
    t[a] > t[b] || (t[a] == t[b] && Less(a, b))
  }

  lemma BeforeIsStrictTotal(t: Times, a: string, b: string)
    requires a in t && b in t
    ensures Before(t, a, b) || Before(t, b, a) || a == b
    ensures !(Before(t, a, b) && Before(t, b, a)) && !Before(t, a, a)
  {
    LessIsTotal(a, b);
    LessIsTotal(a, a);
  }

  lemma BeforeIsTransitive(t: Times, a: string, b: string, c: string)
    requires a in t && b in t && c in t
    requires Before(t, a, b) && Before(t, b, c)
    ensures Before(t, a, c)
  {
    if t[a] == t[b] == t[c] { LessIsTransitive(a, b, c); }
  }

  /** How many of `s` come before `c`. */
  function Ahead(t: Times, s: set<string>, c: string): set<string>
    requires s <= t.Keys && c in t
  {
    set d | d in s && Before(t, d, c)
  }

  /** The kept extras, by rank alone. */
  function TopK(t: Times, s: set<string>, k: nat): set<string>
    requires s <= t.Keys
  {
    set c | c in s && |Ahead(t, s, c)| < k
  }

  predicate Sorted(t: Times, s: seq<string>) {
    && (forall i :: 0 <= i < |s| ==> s[i] in t)
    && (forall i, j :: 0 <= i < j < |s| ==> Before(t, s[i], s[j]))
  }

  function Elements(s: seq<string>): set<string> {
    set c | c in s
  }

  /** One insertion into a sorted list. */
  function Insert(t: Times, s: seq<string>, c: string): (r: seq<string>)
    requires Sorted(t, s) && c in t && c !in s
    ensures Sorted(t, r) && |r| == |s| + 1
    ensures forall x :: x in r <==> x in s || x == c
  {
    if s == [] then [c]
    else if Before(t, c, s[0]) then
      assert forall i :: 0 < i < |s| ==> Before(t, c, s[i]) by {
        forall i | 0 < i < |s| ensures Before(t, c, s[i]) { BeforeIsTransitive(t, c, s[0], s[i]); }
      }
      [c] + s
    else
      BeforeIsStrictTotal(t, c, s[0]);
      var rest := Insert(t, s[1..], c);
      assert forall x :: x in rest ==> Before(t, s[0], x) by {
        forall x | x in rest ensures Before(t, s[0], x) {
          if x != c { var i :| 0 <= i < |s[1..]| && s[1..][i] == x; assert s[i + 1] == x; }
        }
      }
      [s[0]] + rest
  }

  /** In a sorted list, position is rank. */
  lemma {:induction false} RankIsPosition(t: Times, s: seq<string>, i: nat)
    requires Sorted(t, s) && i < |s|
    ensures Elements(s) <= t.Keys && Ahead(t, Elements(s), s[i]) == Elements(s[..i])
    ensures |Elements(s[..i])| == i
  {
    forall d | d in s ensures Before(t, d, s[i]) <==> d in s[..i] {
      var j :| 0 <= j < |s| && s[j] == d;
      BeforeIsStrictTotal(t, d, s[i]);
      if j < i { assert s[..i][j] == d; }
    }
    DistinctCount(t, s[..i]);
  }

  lemma {:induction false} DistinctCount(t: Times, s: seq<string>)
    requires Sorted(t, s)
    ensures |Elements(s)| == |s|
  {
    if s != [] {
      var n := |s| - 1;
      DistinctCount(t, s[..n]);
      assert s[n] !in s[..n] by {
        if s[n] in s[..n] { BeforeIsStrictTotal(t, s[n], s[n]); }
      }
      assert Elements(s) == Elements(s[..n]) + {s[n]};
    }
  }

  lemma PrefixIsTopK(t: Times, s: seq<string>, k: nat)
    requires Sorted(t, s)
    ensures var n := if k < |s| then k else |s|;
            Elements(s) <= t.Keys && TopK(t, Elements(s), k) == Elements(s[..n]) && |Elements(s[..n])| == n
  {
    var n := if k < |s| then k else |s|;
    forall c | c in s ensures c in TopK(t, Elements(s), k) <==> c in s[..n] {
      var i :| 0 <= i < |s| && s[i] == c;
      RankIsPosition(t, s, i);
      if c in s[..n] {
        var j :| 0 <= j < n && s[j] == c;
        BeforeIsStrictTotal(t, c, c);
      }
      if i < n { assert s[..n][i] == c; }
    }
    DistinctCount(t, s[..n]);
  }

  lemma {:induction false} SortedExists(t: Times, s: set<string>) returns (l: seq<string>)
    requires s <= t.Keys
    ensures Sorted(t, l) && Elements(l) == s
  {
    l := [];
    if s != {} {
      var c :| c in s;
      var rest := SortedExists(t, s - {c});
      assert c !in Elements(rest);
      l := Insert(t, rest, c);
      forall x ensures x in Elements(l) <==> x in s { assert x in rest <==> x in Elements(rest); }
    }
  }

  /** Exactly min(k, n) of the n candidates are kept, and whatever is not kept is older than
      everything that is, or as old with a later ID. */
  lemma TopKCounts(t: Times, s: set<string>, k: nat)
    requires s <= t.Keys
    ensures |TopK(t, s, k)| == if k < |s| then k else |s|
    ensures forall c, d :: c in TopK(t, s, k) && d in s - TopK(t, s, k) ==>
              t[c] > t[d] || (t[c] == t[d] && Less(c, d))
  {
    var l := SortedExists(t, s);
    DistinctCount(t, l);
    PrefixIsTopK(t, l, k);
    forall c, d | c in TopK(t, s, k) && d in s - TopK(t, s, k) ensures Before(t, c, d) {
      var i :| 0 <= i < |l| && l[i] == c;
      var j :| 0 <= j < |l| && l[j] == d;
      RankIsPosition(t, l, i);
      RankIsPosition(t, l, j);
    }
  }

  /** Fewer candidates or more places never push out a candidate that stays one. */
  lemma TopKIsMonotone(t: Times, s: set<string>, k: nat, fewer: set<string>, more: nat, c: string)
    requires fewer <= s <= t.Keys && k <= more && c in fewer && c in TopK(t, s, k)
    ensures c in TopK(t, fewer, more)
  {
    assert Ahead(t, fewer, c) <= Ahead(t, s, c);
    SubsetCount(Ahead(t, fewer, c), Ahead(t, s, c));
  }

  lemma SubsetCount(a: set<string>, b: set<string>)
    requires a <= b
    ensures |a| <= |b|
  {
    assert b == a + (b - a);
  }

  /** Dropping only candidates that were not kept leaves the kept ones as they are. */
  lemma TopKIsStable(t: Times, s: set<string>, k: nat, rest: set<string>)
    requires rest <= s <= t.Keys && TopK(t, s, k) <= rest
    ensures TopK(t, rest, k) == TopK(t, s, k)
  {
    forall c | c in rest ensures c in TopK(t, rest, k) <==> c in TopK(t, s, k) {
      if c in TopK(t, s, k) {
        TopKIsMonotone(t, s, k, rest, k, c);
      } else {
        TopKCounts(t, s, k);
        assert TopK(t, s, k) <= Ahead(t, rest, c);
        SubsetCount(TopK(t, s, k), Ahead(t, rest, c));
        if |s| <= k { SubsetEquals(TopK(t, s, k), s); }
      }
    }
  }

  lemma SubsetEquals(a: set<string>, b: set<string>)
    requires a <= b && |a| == |b|
    ensures a == b
  {
    assert |b - a| == |b| - |a|;
  }
}
