/** The per-member feature sampling of LinearPerceptronEnsemble: how many
    features a member loses, which ones the shrinking `available` pool hands
    out, and the descending deletion of those columns. */
module Sampling {
  import opened Common

  /** `(int) (nf * proportion)`: Java's cast truncates towards zero and
      saturates at the `int` range. */
  function FeatureCount(nf: nat, proportion: real): (y: Int32)
    ensures 0.0 <= nf as real * proportion <= IntMax as real ==>
      y as real <= nf as real * proportion < y as real + 1.0
    ensures nf as real * proportion > IntMax as real ==> y == IntMax
    ensures IntMin as real <= nf as real * proportion < 0.0 ==>
      y as real - 1.0 < nf as real * proportion <= y as real
    ensures nf as real * proportion < IntMin as real ==> y == IntMin
  {
    var x := nf as real * proportion;
    var t := if x >= 0.0 then x.Floor else -((-x).Floor);
    if t > IntMax then IntMax else if t < IntMin then IntMin else t
  }

  /** A proportion in [0, 1] asks for between 0 and `nf` features. */
  lemma ProportionGivesFeatureCount(nf: nat, proportion: real)
    requires 0.0 <= proportion <= 1.0 && nf <= IntMax
    ensures 0 <= FeatureCount(nf, proportion) <= nf
  {
    var n := nf as real;
    NonNegativeProduct(n, proportion);
    NonNegativeProduct(n, 1.0 - proportion);
    assert n * proportion == n - n * (1.0 - proportion);
  }

  lemma NonNegativeProduct(a: real, b: real)
    requires 0.0 <= a && 0.0 <= b
    ensures 0.0 <= a * b
  {
  }

  /** The initial pool `available`: 0, 1, ..., nf - 1. */
  function Range(nf: nat): (r: seq<int>)
    ensures |r| == nf && forall i :: 0 <= i < nf ==> r[i] == i
  {
    seq(nf, i => i)
  }

  /** The pool after the value at `pick` is drawn: a pool one shorter, whose
      entry `j` is the old entry, or 0 where the old entry equals the drawn value. */
  function Shrink(available: seq<int>, pick: nat): (r: seq<int>)
    requires pick < |available|
    ensures |r| == |available| - 1
  {
    seq(|available| - 1, j requires 0 <= j < |available| - 1 =>
      if available[j] != available[pick] then available[j] else 0)
  }

  /** What shrinking does to each slot: the entry is kept, or zeroed because
      it equals the drawn value; the last slot is lost. */
  lemma ShrinkZeroesOnlyDrawn(available: seq<int>, pick: nat)
    requires pick < |available|
    ensures forall j :: 0 <= j < |available| - 1 ==>
      Shrink(available, pick)[j] == available[j]
      || (Shrink(available, pick)[j] == 0 && available[j] == available[pick])
    ensures forall j :: 0 <= j < |available| - 1 && available[j] != available[pick] ==>
      Shrink(available, pick)[j] == available[j]
  {
  }

  /** A draw index for every step: the `i`-th is below the pool size `nf - i`,
      as `nextInt(available.length)` returns. */
  predicate DrawsFit(nf: nat, draws: seq<nat>)
  {
    |draws| <= nf && forall i :: 0 <= i < |draws| ==> draws[i] < nf - i
  }

  /** The pool after the first `i` draws. */
  function Pool(nf: nat, draws: seq<nat>, i: nat): (r: seq<int>)
    requires DrawsFit(nf, draws) && i <= |draws|
    ensures |r| == nf - i
  {
    if i == 0 then Range(nf) else Shrink(Pool(nf, draws, i - 1), draws[i - 1])
  }

  /** The values `toMove` receives, draw by draw. */
  function Drawn(nf: nat, draws: seq<nat>): (r: seq<int>)
    requires DrawsFit(nf, draws)
    ensures |r| == |draws|
  {
    seq(|draws|, i requires 0 <= i < |draws| => Pool(nf, draws, i)[draws[i]])
  }

  /** Every entry is a feature index below `nf`. */
  predicate InRange(s: seq<int>, nf: nat)
  {
    forall i :: 0 <= i < |s| ==> 0 <= s[i] < nf
  }

  /** Only 0 can occur twice. */
  predicate OnlyZeroRepeats(s: seq<int>)
  {
    forall i, j :: 0 <= i < j < |s| && s[i] == s[j] ==> s[i] == 0
  }

  /** The pool's shape: feature indices whose nonzero entries are all different. */
  predicate PoolShape(available: seq<int>, nf: nat)
  {
    InRange(available, nf) && OnlyZeroRepeats(available)
  }

  /** Shrinking keeps the shape, keeps every nonzero entry other than the drawn
      value, and removes the drawn value unless it is 0. */
  lemma ShrinkKeepsShape(available: seq<int>, pick: nat, nf: nat)
    requires pick < |available| && PoolShape(available, nf)
    ensures PoolShape(Shrink(available, pick), nf)
    ensures forall j :: 0 <= j < |available| - 1 ==> Shrink(available, pick)[j] != 0 ==>
      Shrink(available, pick)[j] == available[j]
    ensures available[pick] != 0 ==> available[pick] !in Shrink(available, pick)
  {
  }

  /** `SampleFeatures`' loop, one draw at a time: every value drawn so far is
      gone from the pool unless it is 0. */
  predicate Exhausted(toMove: seq<int>, available: seq<int>)
  {
    forall a, b :: 0 <= a < |toMove| && 0 <= b < |available| && toMove[a] != 0 ==> available[b] != toMove[a]
  }

  /** The drawing loop of `buildClassifier` for one member: `y` draws from the
      shrinking pool.  The values are feature indices, and because a drawn
      value leaves the pool (or turns into 0), only 0 can be drawn twice. */
  method SampleFeatures(nf: nat, draws: seq<nat>) returns (toMove: seq<int>)
    requires DrawsFit(nf, draws)
    ensures toMove == Drawn(nf, draws)
    ensures InRange(toMove, nf)
    ensures OnlyZeroRepeats(toMove)
  {
    var available := Range(nf);
    toMove := [];
    var i := 0;
    while i < |draws|
      invariant 0 <= i <= |draws|
      invariant available == Pool(nf, draws, i)
      invariant |toMove| == i
      invariant forall a :: 0 <= a < i ==> toMove[a] == Drawn(nf, draws)[a]
      invariant PoolShape(available, nf)
      invariant InRange(toMove, nf) && OnlyZeroRepeats(toMove)
      invariant Exhausted(toMove, available)
    {
      var random := draws[i];
      var v := available[random];
      ShrinkKeepsShape(available, random, nf);
      toMove := toMove + [v];
      available := Shrink(available, random);
      i := i + 1;
    }
  }

  /** Ascending order, as `Arrays.sort` leaves it. */
  predicate Sorted(s: seq<int>)
  {
    forall i, j :: 0 <= i < j < |s| ==> s[i] <= s[j]
  }

  /** `x` put in front of the first entry it does not exceed. */
  function Insert(x: int, s: seq<int>): (r: seq<int>)
    ensures |r| == |s| + 1 && multiset(r) == multiset(s) + multiset{x}
  {
    if |s| == 0 then [x]
    else if x <= s[0] then [x] + s
    else
      assert s == [s[0]] + s[1..];
      [s[0]] + Insert(x, s[1..])
  }

  /** Inserting into a sorted sequence keeps it sorted. */
  lemma {:induction false} InsertSorted(x: int, s: seq<int>)
    requires Sorted(s)
    ensures Sorted(Insert(x, s))
    decreases |s|
  {
    if |s| > 0 && x > s[0] {
      var rest := Insert(x, s[1..]);
      InsertSorted(x, s[1..]);
      forall i | 0 <= i < |rest|
        ensures s[0] <= rest[i]
      {
        assert rest[i] in multiset(rest);
        if rest[i] != x {
          assert rest[i] in multiset(s[1..]);
        }
      }
    }
  }

  /** `Arrays.sort`: an ascending permutation of the input. */
  function SortAsc(s: seq<int>): (r: seq<int>)
    ensures Sorted(r) && |r| == |s| && multiset(r) == multiset(s)
  {
    if |s| == 0 then []
    else
      assert s == s[..|s| - 1] + [s[|s| - 1]];
      var rest := SortAsc(s[..|s| - 1]);
      InsertSorted(s[|s| - 1], rest);
      Insert(s[|s| - 1], rest)
  }

  /** Only 0 repeats exactly when no nonzero value occurs twice, a statement
      about the multiset alone. */
  lemma OnlyZeroRepeatsByCount(s: seq<int>)
    ensures OnlyZeroRepeats(s) <==> forall v :: v != 0 ==> multiset(s)[v] <= 1
  {
    if OnlyZeroRepeats(s) {
      forall v | v != 0
        ensures multiset(s)[v] <= 1
      {
        AtMostOnce(s, v);
      }
    }
    if forall v :: v != 0 ==> multiset(s)[v] <= 1 {
      forall i, j | 0 <= i < j < |s| && s[i] == s[j]
        ensures s[i] == 0
      {
        if s[i] != 0 {
          TwiceCounts(s, i, j);
        }
      }
    }
  }

  lemma {:induction false} AtMostOnce(s: seq<int>, v: int)
    requires OnlyZeroRepeats(s) && v != 0
    ensures multiset(s)[v] <= 1
    decreases |s|
  {
    if |s| > 0 {
      var p := s[..|s| - 1];
      assert s == p + [s[|s| - 1]];
      AtMostOnce(p, v);
      if s[|s| - 1] == v {
        assert v !in p;
      }
    }
  }

  lemma TwiceCounts(s: seq<int>, i: nat, j: nat)
    requires i < j < |s| && s[i] == s[j]
    ensures multiset(s)[s[i]] >= 2
  {
    var v := s[i];
    assert s == s[..i] + [v] + s[i + 1..j] + [v] + s[j + 1..];
  }

  /** Sorting keeps the only-zero-repeats property, because it keeps the multiset. */
  lemma SortKeepsOnlyZeroRepeats(s: seq<int>)
    requires OnlyZeroRepeats(s)
    ensures OnlyZeroRepeats(SortAsc(s))
  {
    OnlyZeroRepeatsByCount(s);
    OnlyZeroRepeatsByCount(SortAsc(s));
  }

  /** Sorting keeps every entry a feature index below `nf`. */
  lemma SortKeepsRange(s: seq<int>, nf: nat)
    requires InRange(s, nf)
    ensures InRange(SortAsc(s), nf)
  {
    var r := SortAsc(s);
    forall i | 0 <= i < |r|
      ensures 0 <= r[i] < nf
    {
      assert r[i] in multiset(r);
      assert r[i] in multiset(s);
      var j :| 0 <= j < |s| && s[j] == r[i];
    }
  }

  /** In a sorted run with no nonzero repeats, a positive entry is followed by
      entries that grow by at least one per position. */
  lemma {:induction false} StrictAfterPositive(t: seq<int>, p: nat, q: nat)
    requires Sorted(t) && OnlyZeroRepeats(t)
    requires p <= q < |t| && t[p] > 0
    ensures t[q] >= t[p] + (q - p)
    decreases q - p
  {
    if q > p {
      StrictAfterPositive(t, p, q - 1);
      assert t[q - 1] != t[q];
    }
  }

  /** The descending deletion stays in range: the entry at position `j` is
      deleted after the `|t| - 1 - j` entries above it, and is below the column
      count `nf - (|t| - 1 - j)` left by then. */
  lemma DeletionIndicesInRange(t: seq<int>, nf: nat)
    requires Sorted(t) && OnlyZeroRepeats(t) && InRange(t, nf) && |t| <= nf
    ensures Deletable(t, nf, |t|)
  {
    forall j | 0 <= j < |t|
      ensures t[j] < nf - (|t| - 1 - j)
    {
      if t[j] > 0 {
        StrictAfterPositive(t, j, |t| - 1);
      }
    }
  }

  /** Deleting `t[k - 1]`, ..., `t[0]` in that order from `nf` columns never
      names a column that is gone. */
  predicate Deletable(t: seq<int>, nf: nat, k: nat)
    requires k <= |t|
  {
    forall j :: 0 <= j < k ==> 0 <= t[j] < nf - (k - 1 - j)
  }

  /** `deleteAttributeAt(c)` on one row: column `c` goes, the others keep their order. */
  function DeleteAt(row: Instance, c: nat): (r: Instance)
    requires c < |row.values|
    ensures |r.values| == |row.values| - 1 && r.classValue == row.classValue
    ensures forall i :: 0 <= i < c ==> r.values[i] == row.values[i]
    ensures forall i :: c <= i < |r.values| ==> r.values[i] == row.values[i + 1]
  {
    Instance(row.values[..c] + row.values[c + 1..], row.classValue)
  }

  /** `deleteAttributeAt(c)` on a dataset of width `w`. */
  function DeleteColumn(data: seq<Instance>, c: nat, w: nat): (r: seq<Instance>)
    requires Rectangular(data, w) && c < w
    ensures |r| == |data| && Rectangular(r, w - 1)
    ensures forall i :: 0 <= i < |data| ==> r[i] == DeleteAt(data[i], c)
  {
    seq(|data|, i requires 0 <= i < |data| => DeleteAt(data[i], c))
  }

  /** The deletions from `toMove[k]` down to `toMove[0]`, from the highest index
      down, on a dataset of width `nf`. */
  function DeleteFrom(data: seq<Instance>, toMove: seq<int>, nf: nat, k: nat): (r: seq<Instance>)
    requires Rectangular(data, nf) && k <= |toMove| && k <= nf
    requires Deletable(toMove, nf, k)
    ensures |r| == |data| && Rectangular(r, nf - k)
    ensures forall i :: 0 <= i < |data| ==> r[i].classValue == data[i].classValue
    decreases k
  {
    if k == 0 then data
    else DeleteFrom(DeleteColumn(data, toMove[k - 1] as nat, nf), toMove, nf - 1, k - 1)
  }

  /** With the deletion of `t[k - 1]` done, the remaining ones still fit the
      narrower dataset and finish the same job. */
  lemma DeleteOne(data: seq<Instance>, t: seq<int>, nf: nat, k: nat)
    requires Rectangular(data, nf) && 0 < k <= |t| && k <= nf && Deletable(t, nf, k)
    ensures Deletable(t, nf - 1, k - 1)
    ensures Rectangular(DeleteColumn(data, t[k - 1] as nat, nf), nf - 1)
    ensures DeleteFrom(data, t, nf, k) == DeleteFrom(DeleteColumn(data, t[k - 1] as nat, nf), t, nf - 1, k - 1)
  {
  }

  /** The deletion loop of `buildClassifier`: the entries of `toMove` are
      deleted from the last to the first, each naming a column still present
      (as `DeletionIndicesInRange` shows for the sorted draws).  Each member's
      dataset keeps its rows and their class values and loses exactly
      `|toMove|` feature columns. */
  method DeleteColumns(data: seq<Instance>, nf: nat, toMove: seq<int>) returns (r: seq<Instance>)
    requires Rectangular(data, nf) && |toMove| <= nf && Deletable(toMove, nf, |toMove|)
    ensures |r| == |data| && Rectangular(r, nf - |toMove|)
    ensures forall i :: 0 <= i < |data| ==> r[i].classValue == data[i].classValue
    ensures r == DeleteFrom(data, toMove, nf, |toMove|)
  {
    var n := |toMove|;
    r := data;
    var d := 0;
    while d < n
      invariant 0 <= d <= n
      invariant Rectangular(r, nf - d) && Deletable(toMove, nf - d, n - d)
      invariant DeleteFrom(data, toMove, nf, n) == DeleteFrom(r, toMove, nf - d, n - d)
    {
      DeleteOne(r, toMove, nf - d, n - d);
      r := DeleteColumn(r, toMove[n - 1 - d] as nat, nf - d);
      d := d + 1;
    }
  }
}
