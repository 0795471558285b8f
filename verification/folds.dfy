/** The k-fold layout and the train/test split of EnhancedLinearPerceptron's
    cross-validation (`kFoldCrossValidate`, `createModel`). */
module Folds {
  import opened Common

  /** Fold `i` holds the `m` consecutive indices starting at `i * m`. */
  predicate IsLayout(folds: seq<seq<int>>, k: nat, m: nat)
  {
    && |folds| == k
    && (forall i :: 0 <= i < k ==> |folds[i]| == m)
    && (forall i, y :: 0 <= i < k && 0 <= y < m ==> folds[i][y] == i * m + y)
  }

  /** The fold table built by `kFoldCrossValidate`: `k` rows of `n / k` indices
      each, filled by one running counter. */
  method FoldLayout(k: nat, n: nat) returns (folds: seq<seq<int>>)
    requires k > 0
    ensures IsLayout(folds, k, n / k)
  {
    var m := n / k;
    folds := [];
    var current := 0;
    var i := 0;
    while i < k
      invariant 0 <= i <= k
      invariant |folds| == i
      invariant current == i * m
      invariant forall a :: 0 <= a < i ==> |folds[a]| == m
      invariant forall a, y :: 0 <= a < i && 0 <= y < m ==> folds[a][y] == a * m + y
    {
      var row := [];
      var y := 0;
      while y < m
        invariant 0 <= y <= m
        invariant |row| == y
        invariant current == i * m + y
        invariant forall b :: 0 <= b < y ==> row[b] == i * m + b
      {
        row := row + [current];
        current := current + 1;
        y := y + 1;
      }
      folds := folds + [row];
      i := i + 1;
    }
  }

  lemma MulMonotone(a: nat, b: nat, m: nat)
    requires a <= b
    ensures a * m <= b * m
  {
  }

  lemma DivBound(n: nat, k: nat)
    requires k > 0
    ensures k * (n / k) <= n
  {
  }

  /** Every fold index is below `k * (n / k)`, which is at most `n`: the
      `n % k` trailing rows are in no fold. */
  lemma LayoutInRange(folds: seq<seq<int>>, k: nat, n: nat)
    requires k > 0 && IsLayout(folds, k, n / k)
    ensures k * (n / k) <= n
    ensures forall i, y :: 0 <= i < k && 0 <= y < n / k ==> 0 <= folds[i][y] < k * (n / k)
  {
    var m := n / k;
    DivBound(n, k);
    forall i, y | 0 <= i < k && 0 <= y < m
      ensures 0 <= folds[i][y] < k * m
    {
      MulMonotone(i + 1, k, m);
    }
  }

  /** No index lies in two folds, nor twice in one. */
  lemma LayoutDisjoint(folds: seq<seq<int>>, k: nat, m: nat)
    requires IsLayout(folds, k, m)
    ensures forall i, y, j, z ::
      (0 <= i < k && 0 <= y < m && 0 <= j < k && 0 <= z < m && folds[i][y] == folds[j][z]) ==> i == j && y == z
  {
    forall i, y, j, z | 0 <= i < k && 0 <= y < m && 0 <= j < k && 0 <= z < m && folds[i][y] == folds[j][z]
      ensures i == j && y == z
    {
      if i < j {
        MulMonotone(i + 1, j, m);
      } else if j < i {
        MulMonotone(j + 1, i, m);
      }
    }
  }

  lemma DivModOf(idx: nat, m: nat)
    requires m > 0
    ensures idx == (idx / m) * m + idx % m && 0 <= idx % m < m
  {
  }

  /** Every index below `k * m` lies in fold `index / m`, at position `index % m`. */
  lemma LayoutCovers(folds: seq<seq<int>>, k: nat, m: nat)
    requires IsLayout(folds, k, m)
    ensures forall idx :: 0 <= idx < k * m ==> idx / m < k && folds[idx / m][idx % m] == idx
  {
    forall idx | 0 <= idx < k * m
      ensures idx / m < k && folds[idx / m][idx % m] == idx
    {
      assert m > 0;
      DivModOf(idx, m);
      var q := idx / m;
      if q >= k {
        MulMonotone(k, q, m);
      }
    }
  }

  /** The rows at even positions of a stretch `t` (first, third, ...): the
      test rows `createModel` collects from the held-out stretch. */
  function Evens<T>(t: seq<T>): (r: seq<T>)
    requires |t| % 2 == 0
    ensures 2 * |r| == |t|
  {
    if |t| == 0 then [] else Evens(t[..|t| - 2]) + [t[|t| - 2]]
  }

  /** The rows at odd positions of a stretch, which stay in the training set. */
  function Odds<T>(t: seq<T>): (r: seq<T>)
    requires |t| % 2 == 0
    ensures 2 * |r| == |t|
  {
    if |t| == 0 then [] else Odds(t[..|t| - 2]) + [t[|t| - 1]]
  }

  /** Position `j` of `Evens(t)` is position `2 * j` of `t`. */
  lemma {:induction false} EvensAt<T>(t: seq<T>)
    requires |t| % 2 == 0
    ensures forall j :: 0 <= j < |Evens(t)| ==> Evens(t)[j] == t[2 * j]
    decreases |t|
  {
    if |t| > 0 {
      var p := t[..|t| - 2];
      EvensAt(p);
      forall j | 0 <= j < |Evens(t)|
        ensures Evens(t)[j] == t[2 * j]
      {
        if j < |Evens(p)| {
          assert Evens(t)[j] == Evens(p)[j];
        }
      }
    }
  }

  /** Position `j` of `Odds(t)` is position `2 * j + 1` of `t`. */
  lemma {:induction false} OddsAt<T>(t: seq<T>)
    requires |t| % 2 == 0
    ensures forall j :: 0 <= j < |Odds(t)| ==> Odds(t)[j] == t[2 * j + 1]
    decreases |t|
  {
    if |t| > 0 {
      var p := t[..|t| - 2];
      OddsAt(p);
      forall j | 0 <= j < |Odds(t)|
        ensures Odds(t)[j] == t[2 * j + 1]
      {
        if j < |Odds(p)| {
          assert Odds(t)[j] == Odds(p)[j];
        }
      }
    }
  }

  lemma LastPair<T>(t: seq<T>)
    requires |t| >= 2 && |t| % 2 == 0
    ensures multiset(t) == multiset(t[..|t| - 2]) + multiset{t[|t| - 2]} + multiset{t[|t| - 1]}
  {
    assert t == t[..|t| - 2] + [t[|t| - 2]] + [t[|t| - 1]];
  }

  lemma EvensLast<T>(t: seq<T>)
    requires |t| >= 2 && |t| % 2 == 0
    ensures multiset(Evens(t)) == multiset(Evens(t[..|t| - 2])) + multiset{t[|t| - 2]}
  {
    assert Evens(t) == Evens(t[..|t| - 2]) + [t[|t| - 2]];
  }

  lemma OddsLast<T>(t: seq<T>)
    requires |t| >= 2 && |t| % 2 == 0
    ensures multiset(Odds(t)) == multiset(Odds(t[..|t| - 2])) + multiset{t[|t| - 1]}
  {
    assert Odds(t) == Odds(t[..|t| - 2]) + [t[|t| - 1]];
  }

  lemma AddBoth<T>(e: multiset<T>, o: multiset<T>, p: multiset<T>, a: multiset<T>, b: multiset<T>)
    requires e + o == p
    ensures (e + a) + (o + b) == p + a + b
  {
  }

  /** Splitting a stretch of even length into its even and odd positions loses
      and invents nothing. */
  lemma {:induction false} EvensOddsSplit<T>(t: seq<T>)
    requires |t| % 2 == 0
    ensures multiset(Evens(t)) + multiset(Odds(t)) == multiset(t)
    decreases |t|
  {
    if |t| > 0 {
      var p := t[..|t| - 2];
      EvensOddsSplit(p);
      LastPair(t);
      EvensLast(t);
      OddsLast(t);
      AddBoth(multiset(Evens(p)), multiset(Odds(p)), multiset(p), multiset{t[|t| - 2]}, multiset{t[|t| - 1]});
    }
  }

  /** Growing a stretch by one pair adds one row to each side. */
  lemma PairStep<T>(cv: seq<T>, base: nat, y: nat)
    requires base + 2 * y + 2 <= |cv|
    ensures Evens(cv[base..base + 2 * y + 2]) == Evens(cv[base..base + 2 * y]) + [cv[base + 2 * y]]
    ensures Odds(cv[base..base + 2 * y + 2]) == Odds(cv[base..base + 2 * y]) + [cv[base + 2 * y + 1]]
  {
    var t := cv[base..base + 2 * y + 2];
    assert t[..|t| - 2] == cv[base..base + 2 * y];
  }

  /** Removing `x` from `a + o + [x, y] + c` leaves `a + (o + [y]) + c`. */
  lemma DropMiddle<T>(a: seq<T>, o: seq<T>, x: T, y: T, c: seq<T>)
    ensures (a + o + [x, y] + c)[|a| + |o|] == x
    ensures (a + o + [x, y] + c)[..|a| + |o|] + (a + o + [x, y] + c)[|a| + |o| + 1..] == a + (o + [y]) + c
  {
    var tr := a + o + [x, y] + c;
    assert tr[..|a| + |o|] == a + o;
    assert tr[|a| + |o| + 1..] == [y] + c;
  }

  /** One removal of `createModel`'s inner loop: in the training list after
      `y` moves, index `base + y` holds row `base + 2 * y` of `cv`, and removing
      it leaves the training list after `y + 1` moves. */
  lemma RemoveStep<T>(cv: seq<T>, base: nat, y: nat, train: seq<T>)
    requires base + 2 * y + 2 <= |cv|
    requires train == cv[..base] + Odds(cv[base..base + 2 * y]) + cv[base + 2 * y..]
    ensures base + y < |train| && train[base + y] == cv[base + 2 * y]
    ensures train[..base + y] + train[base + y + 1..]
      == cv[..base] + Odds(cv[base..base + 2 * y + 2]) + cv[base + 2 * y + 2..]
  {
    var a, o, c := cv[..base], Odds(cv[base..base + 2 * y]), cv[base + 2 * y + 2..];
    var x, z := cv[base + 2 * y], cv[base + 2 * y + 1];
    PairStep(cv, base, y);
    assert cv[base + 2 * y..] == [x, z] + c;
    assert train == a + o + [x, z] + c;
    DropMiddle(a, o, x, z, c);
  }

  /** The held-out stretch of `2 * m` rows from `r * m` fits in the data when `r <= k - 2`. */
  lemma HeldOutFits(n: nat, k: nat, r: nat)
    requires 2 <= k && r < k - 1
    ensures r * (n / k) + 2 * (n / k) <= n
  {
    var m := n / k;
    DivBound(n, k);
    MulMonotone(r + 2, k, m);
  }

  lemma Regroup<T>(a: multiset<T>, o: multiset<T>, e: multiset<T>, c: multiset<T>, t: multiset<T>)
    requires e + o == t
    ensures (a + o + c) + e == a + t + c
  {
  }

  /** Moving the even positions of a stretch `t` to the test list keeps every
      row: the rest of the training list is `a` before the stretch and `c` after it. */
  lemma SplitKeepsRows<T>(a: seq<T>, t: seq<T>, c: seq<T>)
    requires |t| % 2 == 0
    ensures multiset(a + Odds(t) + c) + multiset(Evens(t)) == multiset(a + t + c)
  {
    EvensOddsSplit(t);
    Regroup(multiset(a), multiset(Odds(t)), multiset(Evens(t)), multiset(c), multiset(t));
  }

  /** The split `createModel` makes of `cv` around the stretch of `2 * m` rows
      from `base`: the test list has `m` rows, the training list the other
      `|cv| - m`, and together they are the rows of `cv`. */
  lemma HeldOutPartition<T>(cv: seq<T>, base: nat, m: nat)
    requires base + 2 * m <= |cv|
    ensures |Evens(cv[base..base + 2 * m])| == m
    ensures |cv[..base] + Odds(cv[base..base + 2 * m]) + cv[base + 2 * m..]| == |cv| - m
    ensures multiset(cv[..base] + Odds(cv[base..base + 2 * m]) + cv[base + 2 * m..]) + multiset(Evens(cv[base..base + 2 * m]))
      == multiset(cv)
  {
    var a, t, c := cv[..base], cv[base..base + 2 * m], cv[base + 2 * m..];
    assert cv == a + t + c;
    SplitKeepsRows(a, t, c);
  }

  /** The test list of `createModel` with held-out fold `r` (`m = n / k`):
      every other row of the stretch of `2 * m` rows from `r * m`. */
  function HeldOutTest<T>(cv: seq<T>, k: nat, r: nat): (test: seq<T>)
    requires 2 <= k && r < k - 1
    ensures |test| == |cv| / k
  {
    HeldOutFits(|cv|, k, r);
    var m := |cv| / k;
    Evens(cv[r * m..r * m + 2 * m])
  }

  /** The training list of `createModel` with held-out fold `r`: every row of
      `cv` but the test rows, in order.  The two lists partition `cv`. */
  function HeldOutTrain<T>(cv: seq<T>, k: nat, r: nat): (train: seq<T>)
    requires 2 <= k && r < k - 1
    ensures |train| == |cv| - |cv| / k
    ensures multiset(train) + multiset(HeldOutTest(cv, k, r)) == multiset(cv)
  {
    HeldOutFits(|cv|, k, r);
    var m := |cv| / k;
    var base := r * m;
    HeldOutPartition(cv, base, m);
    assert HeldOutTest(cv, k, r) == Evens(cv[base..base + 2 * m]);
    cv[..base] + Odds(cv[base..base + 2 * m]) + cv[base + 2 * m..]
  }

  /** The inner loop of `createModel` for the held-out fold, whose row of the
      fold table is `row`: for each `y < m` it appends the row at index `row[y]`
      of the training list to the test list, then removes that index.  Every
      removal shifts the later rows down by one, so the test list takes every
      other row from `base` on, and the rows in between stay in training. */
  method MoveFold(cv: seq<Instance>, row: seq<int>, base: nat, m: nat) returns (train: seq<Instance>, test: seq<Instance>)
    requires base + 2 * m <= |cv|
    requires |row| == m && forall y :: 0 <= y < m ==> row[y] == base + y
    ensures test == Evens(cv[base..base + 2 * m])
    ensures train == cv[..base] + Odds(cv[base..base + 2 * m]) + cv[base + 2 * m..]
  {
    train := cv;
    test := [];
    var y := 0;
    while y < m
      invariant 0 <= y <= m
      invariant test == Evens(cv[base..base + 2 * y])
      invariant train == cv[..base] + Odds(cv[base..base + 2 * y]) + cv[base + 2 * y..]
    {
      PairStep(cv, base, y);
      RemoveStep(cv, base, y, train);
      test := test + [train[row[y]]];
      train := train[..row[y]] + train[row[y] + 1..];
      y := y + 1;
    }
  }

  /** `createModel` with held-out fold `r`, the draw of `nextInt(0, k - 1)`:
      the test list is every other row from `r * m` on (`m = n / k`), the
      training list is everything else in order, and together they are the
      rows of `cv`.  The draw never reaches `k - 1`, and that is what keeps
      every index in range: `r * m + 2 * (m - 1) < n`. */
  method CreateModel(cv: seq<Instance>, folds: seq<seq<int>>, k: nat, r: nat) returns (train: seq<Instance>, test: seq<Instance>)
    requires 2 <= k && r < k - 1
    requires IsLayout(folds, k, |cv| / k)
    ensures r * (|cv| / k) + 2 * (|cv| / k) <= |cv|
    ensures |test| == |cv| / k && |train| == |cv| - |cv| / k
    ensures test == Evens(cv[r * (|cv| / k)..r * (|cv| / k) + 2 * (|cv| / k)])
    ensures train == cv[..r * (|cv| / k)] + Odds(cv[r * (|cv| / k)..r * (|cv| / k) + 2 * (|cv| / k)]) + cv[r * (|cv| / k) + 2 * (|cv| / k)..]
    ensures multiset(train) + multiset(test) == multiset(cv)
    ensures test == HeldOutTest(cv, k, r) && train == HeldOutTrain(cv, k, r)
  {
    var m := |cv| / k;
    var base := r * m;
    HeldOutFits(|cv|, k, r);
    train := cv;
    test := [];
    var i := 0;
    while i < k
      invariant 0 <= i <= k
      invariant i <= r ==> train == cv && test == []
      invariant i > r ==> test == Evens(cv[base..base + 2 * m]) && train == cv[..base] + Odds(cv[base..base + 2 * m]) + cv[base + 2 * m..]
    {
      if i == r {
        train, test := MoveFold(cv, folds[r], base, m);
      }
      i := i + 1;
    }
    HeldOutPartition(cv, base, m);
  }
}
