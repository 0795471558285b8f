/** Types shared by the perceptron, the enhanced perceptron and the ensemble:
    Java's 32-bit `int`, one dataset row, and an optional value. */
module Common {

  const IntMin: int := -0x8000_0000
  const IntMax: int := 0x7fff_ffff
  /** 2^32, the number of distinct Java `int` values. */
  const IntModulus: int := 0x1_0000_0000

  /** A Java `int`. */
  type Int32 = v: int | -0x8000_0000 <= v <= 0x7fff_ffff

  /** Java's `v++` on an `int`: the largest value wraps to the smallest. */
  function Inc(v: Int32): Int32
  {
    if v == IntMax then IntMin else v + 1
  }

  /** One row of a Weka dataset: the feature values in column order, and the
      class value (the class attribute is the last column and is kept apart). */
  datatype Instance = Instance(values: seq<real>, classValue: real)

  /** Every row has exactly `nf` feature columns. */
  predicate Rectangular(data: seq<Instance>, nf: nat)
  {
    forall i :: 0 <= i < |data| ==> |data[i].values| == nf
  }

  /** `perm` lists every index below `n` exactly once (an outcome of `Collections.shuffle`). */
  predicate IsPermutation(perm: seq<nat>, n: nat)
  {
    && |perm| == n
    && (forall i :: 0 <= i < n ==> perm[i] < n)
    && (forall i, j :: 0 <= i < j < n ==> perm[i] != perm[j])
  }

  /** The dataset reordered by a shuffle outcome. */
  function Permute(data: seq<Instance>, perm: seq<nat>): (r: seq<Instance>)
    requires IsPermutation(perm, |data|)
    ensures |r| == |data|
    ensures forall i :: 0 <= i < |r| ==> r[i] == data[perm[i]]
  {
    seq(|data|, i requires 0 <= i < |data| => data[perm[i]])
  }

  /** Pigeonhole: `|s|` pairwise different values below `b` need `|s| <= b`. */
  lemma {:induction false} Pigeonhole(s: seq<nat>, b: nat)
    requires forall i, j :: 0 <= i < j < |s| ==> s[i] != s[j]
    requires forall i :: 0 <= i < |s| ==> s[i] < b
    ensures |s| <= b
    decreases |s|
  {
    if |s| > 0 {
      var x := s[|s| - 1];
      // drop the last value, and move the value `b - 1` (if present) to `x`
      var t := seq(|s| - 1, i requires 0 <= i < |s| - 1 => if s[i] == b - 1 then x else s[i]);
      forall i, j | 0 <= i < j < |t|
        ensures t[i] != t[j]
      {
        assert s[i] != s[j] && s[i] != x && s[j] != x;
      }
      Pigeonhole(t, b - 1);
    }
  }

  /** A shuffle outcome hits every index below `n`. */
  lemma Onto(perm: seq<nat>, n: nat, v: nat)
    requires IsPermutation(perm, n) && v < n
    ensures exists i :: 0 <= i < n && perm[i] == v
  {
    if forall i :: 0 <= i < n ==> perm[i] != v {
      var t := seq(n, i requires 0 <= i < n => if perm[i] == n - 1 then v else perm[i]);
      forall i, j | 0 <= i < j < n
        ensures t[i] != t[j]
      {
        assert perm[i] != perm[j];
      }
      Pigeonhole(t, n - 1);
      assert false;
    }
  }

  /** Removing the position that holds `n - 1` leaves a shuffle outcome of `n - 1`. */
  lemma DropLargest(perm: seq<nat>, n: nat, j: nat)
    requires IsPermutation(perm, n) && j < n && perm[j] == n - 1
    ensures IsPermutation(perm[..j] + perm[j + 1..], n - 1)
    ensures forall i :: 0 <= i < n - 1 ==> (perm[..j] + perm[j + 1..])[i] == if i < j then perm[i] else perm[i + 1]
  {
    var q := perm[..j] + perm[j + 1..];
    assert forall i :: 0 <= i < n - 1 ==> q[i] == if i < j then perm[i] else perm[i + 1];
  }

  /** Reordering the shorter data by the shorter outcome is the full reordering
      without position `j`, which holds the last row. */
  lemma PermuteWithoutLargest(data: seq<Instance>, perm: seq<nat>, j: nat)
    requires |data| > 0 && IsPermutation(perm, |data|) && j < |data| && perm[j] == |data| - 1
    requires IsPermutation(perm[..j] + perm[j + 1..], |data| - 1)
    requires forall i :: 0 <= i < |data| - 1 ==> (perm[..j] + perm[j + 1..])[i] == if i < j then perm[i] else perm[i + 1]
    ensures Permute(data, perm) == Permute(data[..|data| - 1], perm[..j] + perm[j + 1..])[..j]
      + [data[|data| - 1]] + Permute(data[..|data| - 1], perm[..j] + perm[j + 1..])[j..]
  {
  }

  lemma SplitLast<T>(s: seq<T>)
    requires |s| > 0
    ensures s == s[..|s| - 1] + [s[|s| - 1]]
  {
  }

  lemma MultisetSplit<T>(a: seq<T>, x: T, b: seq<T>, c: seq<T>)
    requires multiset(a + b) == multiset(c)
    ensures multiset(a + [x] + b) == multiset(c + [x])
  {
  }

  /** A shuffled copy holds exactly the rows of the data, each as often as
      before: `Collections.shuffle` only reorders. */
  lemma {:induction false} PermuteKeepsRows(data: seq<Instance>, perm: seq<nat>)
    requires IsPermutation(perm, |data|)
    ensures multiset(Permute(data, perm)) == multiset(data)
    decreases |data|
  {
    var n := |data|;
    if n > 0 {
      Onto(perm, n, n - 1);
      var j :| 0 <= j < n && perm[j] == n - 1;
      DropLargest(perm, n, j);
      var perm' := perm[..j] + perm[j + 1..];
      var data' := data[..n - 1];
      PermuteKeepsRows(data', perm');
      PermuteWithoutLargest(data, perm, j);
      var q := Permute(data', perm');
      assert q == q[..j] + q[j..];
      MultisetSplit(q[..j], data[n - 1], q[j..], data');
      SplitLast(data);
    }
  }

  lemma PermutePreservesShape(data: seq<Instance>, perm: seq<nat>, nf: nat)
    requires IsPermutation(perm, |data|)
    requires Rectangular(data, nf)
    ensures Rectangular(Permute(data, perm), nf)
  {
  }

  /** A value, or Java's NaN for a result that IEEE arithmetic leaves undefined. */
  datatype Option<T> = None | Some(value: T)

  /** `n` zeros, as `new double[n]` allocates. */
  function Zeros(n: nat): (r: seq<real>)
    ensures |r| == n
    ensures forall i :: 0 <= i < n ==> r[i] == 0.0
  {
    seq(n, i => 0.0)
  }
}
