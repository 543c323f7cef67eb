/** Pigeonhole facts about finite sets and duplicate-free sequences. */
module Counting {

  ghost predicate NoDuplicates<T>(s: seq<T>) {
    forall i, j :: 0 <= i < j < |s| ==> s[i] != s[j]
  }

  lemma {:induction false} DistinctFit<T(!new)>(s: seq<T>, universe: set<T>)
    requires NoDuplicates(s) && forall i :: 0 <= i < |s| ==> s[i] in universe
    ensures |s| <= |universe|
    decreases |s|
  {
    if s != [] {
      var last := s[|s| - 1];
      var rest := s[..|s| - 1];
      DistinctFit(rest, universe - {last});
      assert |universe - {last}| == |universe| - 1;
    }
  }

  lemma {:induction false} SubsetFits<T>(a: set<T>, b: set<T>)
    requires a <= b
    ensures |a| <= |b|
    ensures |a| == |b| ==> a == b
  {
    assert b == a + (b - a);
  }

  function Below(n: nat): (s: set<nat>)
    ensures |s| == n && forall k: nat :: k in s <==> k < n
  {
    if n == 0 then {} else Below(n - 1) + {n - 1}
  }

  /** Some number is not in a finite set. */
  lemma FreshNumber(used: set<nat>) returns (n: nat)
    ensures n !in used
  {
    if Below(|used| + 1) <= used { SubsetFits(Below(|used| + 1), used); }
    n :| n in Below(|used| + 1) && n !in used;
  }

  /** An injective function from n keys into 0..n-1 takes every value. */
  lemma InjectiveFills(keys: set<nat>, value: map<nat, nat>, n: nat, v: nat)
    requires |keys| == n && forall k :: k in keys ==> k in value && value[k] < n
    requires forall a, b :: a in keys && b in keys && a != b ==> value[a] != value[b]
    requires v < n
    ensures exists k :: k in keys && value[k] == v
  {
    var image := set k | k in keys :: value[k];
    ImageSize(keys, value);
    assert image <= Below(n);
    SubsetFits(image, Below(n));
    assert v in image;
  }

  lemma {:induction false} ImageSize(keys: set<nat>, value: map<nat, nat>)
    requires forall k :: k in keys ==> k in value
    requires forall a, b :: a in keys && b in keys && a != b ==> value[a] != value[b]
    ensures |set k | k in keys :: value[k]| == |keys|
    decreases keys
  {
    if k :| k in keys {
      ImageSize(keys - {k}, value);
      assert (set x | x in keys :: value[x]) == (set x | x in keys - {k} :: value[x]) + {value[k]};
    }
  }

  /** All pairs of a row and a number 1..m. */
  function Pairs(rows: set<nat>, m: nat): set<(nat, nat)> {
    if m == 0 then {} else Pairs(rows, m - 1) + Column(rows, m)
  }

  function Column(rows: set<nat>, k: nat): set<(nat, nat)> { set r | r in rows :: (r, k) }

  lemma {:induction false} InPairs(rows: set<nat>, m: nat, r: nat, k: nat)
    ensures (r, k) in Pairs(rows, m) <==> r in rows && 1 <= k <= m
  {
    if m > 0 { InPairs(rows, m - 1, r, k); }
  }

  lemma {:induction false} PairsSize(rows: set<nat>, m: nat)
    ensures |Pairs(rows, m)| <= |rows| * m
  {
    if m > 0 {
      PairsSize(rows, m - 1);
      ColumnSize(rows, m);
      assert |rows| * m == |rows| * (m - 1) + |rows|;
    }
  }

  lemma {:induction false} ColumnSize(rows: set<nat>, k: nat)
    ensures |Column(rows, k)| == |rows|
    decreases rows
  {
    if r :| r in rows {
      ColumnSize(rows - {r}, k);
      assert Column(rows, k) == Column(rows - {r}, k) + {(r, k)};
    }
  }
}
