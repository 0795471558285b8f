/** EnhancedLinearPerceptron: the perceptron loop with the offline update mode,
    per-feature standardisation, and a k-fold evaluation that chooses between
    the online and the offline update. */
module Enhanced {
  import opened Common
  import opened Perceptron
  import opened Folds

  /** Per-feature mean and standard deviation (`meanPerAttribute`, `STDPerAttribute`). */
  datatype Stats = Stats(mean: seq<real>, std: seq<real>)

  /** The statistics cover the first `nf` features and none of their standard
      deviations is 0, so standardising divides by nonzero numbers only. */
  predicate Usable(st: Stats, nf: nat)
  {
    nf <= |st.mean| && nf <= |st.std| && forall i :: 0 <= i < nf ==> st.std[i] != 0.0
  }

  /** What `resetStandardise` leaves behind: two fresh arrays of `nf` zeros.
      With at least one feature, they can standardise nothing. */
  function ResetStats(nf: nat): (st: Stats)
    ensures |st.mean| == nf && |st.std| == nf
    ensures nf > 0 ==> !Usable(st, nf)
  {
    var st := Stats(Zeros(nf), Zeros(nf));
    assert nf > 0 ==> st.std[0] == 0.0;
    st
  }

  /** `standardiseInstance`: every feature `v` becomes `(v - mean) / std`; the
      class value is left alone.  The result is exactly the value that scales
      back to `v`. */
  function StandardiseInstance(row: Instance, st: Stats): (r: Instance)
    requires Usable(st, |row.values|)
    ensures r.classValue == row.classValue && |r.values| == |row.values|
    ensures forall i :: 0 <= i < |row.values| ==> r.values[i] * st.std[i] + st.mean[i] == row.values[i]
  {
    Instance(seq(|row.values|, i requires 0 <= i < |row.values| => (row.values[i] - st.mean[i]) / st.std[i]),
      row.classValue)
  }

  /** The inverse map: scale each feature back by its deviation and add the mean. */
  function Unstandardise(row: Instance, st: Stats): (r: Instance)
    requires |row.values| <= |st.mean| && |row.values| <= |st.std|
    ensures r.classValue == row.classValue && |r.values| == |row.values|
  {
    Instance(seq(|row.values|, i requires 0 <= i < |row.values| => row.values[i] * st.std[i] + st.mean[i]),
      row.classValue)
  }

  /** Standardising loses nothing: the two maps undo each other. */
  lemma StandardiseRoundTrip(row: Instance, st: Stats)
    requires Usable(st, |row.values|)
    ensures Unstandardise(StandardiseInstance(row, st), st) == row
    ensures StandardiseInstance(Unstandardise(row, st), st) == row
  {
    var u := Unstandardise(row, st);
    forall i | 0 <= i < |row.values|
      ensures StandardiseInstance(u, st).values[i] == row.values[i]
    {
      var v, m, d := row.values[i], st.mean[i], st.std[i];
      assert u.values[i] == v * d + m;
      assert (v * d + m - m) / d == v;
    }
    assert StandardiseInstance(u, st).values == row.values;
    var z := StandardiseInstance(row, st);
    forall i | 0 <= i < |row.values|
      ensures Unstandardise(z, st).values[i] == row.values[i]
    {
    }
    assert Unstandardise(z, st).values == row.values;
  }

  /** Mean 0 and deviation 1 make standardising the identity. */
  lemma NeutralStatsChangeNothing(row: Instance, st: Stats)
    requires |row.values| <= |st.mean| && |row.values| <= |st.std|
    requires forall i :: 0 <= i < |row.values| ==> st.mean[i] == 0.0 && st.std[i] == 1.0
    ensures StandardiseInstance(row, st) == row
  {
    assert StandardiseInstance(row, st).values == row.values;
  }

  /** `standardiseInstances` applied to a dataset whose statistics are `st`:
      every row is rewritten in place, in the same order. */
  function StandardiseAll(data: seq<Instance>, st: Stats, nf: nat): (r: seq<Instance>)
    requires Rectangular(data, nf) && Usable(st, nf)
    ensures |r| == |data| && Rectangular(r, nf)
    ensures forall i :: 0 <= i < |data| ==> Unstandardise(r[i], st) == data[i]
  {
    var r := seq(|data|, i requires 0 <= i < |data| => StandardiseInstance(data[i], st));
    assert forall i :: 0 <= i < |data| ==> Unstandardise(r[i], st) == data[i] by {
      forall i | 0 <= i < |data|
        ensures Unstandardise(r[i], st) == data[i]
      {
        StandardiseRoundTrip(data[i], st);
      }
    }
    r
  }

  /** An EnhancedLinearPerceptron object.  `online` is the update mode the
      next training run uses; `numFeatures` is `numAttributes - 1` of the
      dataset it was last built on. */
  datatype EnhancedModel = EnhancedModel(
    weights: seq<real>, weightsSet: bool, offline: seq<real>, stats: Stats,
    learningRate: real, bias: Int32, stoppingCondition: Int32, k: Int32,
    standardise: bool, online: bool, crossValidate: bool,
    phase: Phase, numFeatures: nat)

  /** A freshly constructed EnhancedLinearPerceptron. */
  const Initial: EnhancedModel :=
    EnhancedModel([], false, [], Stats([], []), 1.0, 0, 0, 4, false, true, false, Training, 0)

  /** The update mode the `online` flag selects. */
  function ModeOf(online: bool): (mode: Mode)
    ensures mode == Online <==> online
  {
    if online then Online else Offline
  }

  /** The loop parameters of a model in the given update mode. */
  function ConfigFor(m: EnhancedModel, mode: Mode): Config
  {
    Config(m.learningRate, m.bias, m.stoppingCondition, mode, m.phase)
  }

  /** What `classifyInstance` gives back: the decision, and the instance as the
      call leaves it. */
  datatype Answer = Answer(output: real, row: Instance)

  /** `classifyInstance`.  With `standardise` set the instance is first rewritten
      in place with the model's statistics, and the decision is taken on the
      rewritten values.  `None` stands for the two ways standardising fails:
      a deviation of 0, where Java computes NaN or infinite values, and
      statistics arrays shorter than the row, where Java throws
      ArrayIndexOutOfBoundsException. */
  function ClassifyInstance(m: EnhancedModel, row: Instance): (r: Option<Answer>)
    requires m.numFeatures <= |m.weights| && m.numFeatures <= |row.values|
    ensures r.None? <==> m.standardise && !Usable(m.stats, |row.values|)
    ensures r.Some? ==> r.value.output == -1.0 || r.value.output == 0.0 || r.value.output == 1.0
    ensures r.Some? ==> r.value.row.classValue == row.classValue && |r.value.row.values| == |row.values|
    ensures r.Some? ==> r.value.output == Classify(m.weights, r.value.row.values, m.numFeatures, m.phase, m.bias)
    ensures r.Some? && !m.standardise ==> r.value.row == row
    ensures r.Some? && m.standardise ==> Unstandardise(r.value.row, m.stats) == row
  {
    if !m.standardise then
      Some(Answer(Classify(m.weights, row.values, m.numFeatures, m.phase, m.bias), row))
    else if Usable(m.stats, |row.values|) then
      var row' := StandardiseInstance(row, m.stats);
      StandardiseRoundTrip(row, m.stats);
      Some(Answer(Classify(m.weights, row'.values, m.numFeatures, m.phase, m.bias), row'))
    else
      None
  }

  /** The model can classify every row of `test`: rows of the model's width,
      weights to match, and usable statistics if it standardises. */
  predicate CanClassify(m: EnhancedModel, test: seq<Instance>)
  {
    && Rectangular(test, m.numFeatures)
    && (|test| > 0 ==> m.numFeatures <= |m.weights| && (m.standardise ==> Usable(m.stats, m.numFeatures)))
  }

  /** Whether `accuracy` counts `row` as correct: the raw output must equal the
      class value itself. */
  predicate Hit(m: EnhancedModel, row: Instance)
    requires m.numFeatures <= |m.weights| && |row.values| == m.numFeatures
    requires m.standardise ==> Usable(m.stats, m.numFeatures)
  {
    ClassifyInstance(m, row).value.output == row.classValue
  }

  /** How many rows of `test` are hits. */
  function Hits(m: EnhancedModel, test: seq<Instance>): (h: nat)
    requires CanClassify(m, test)
    ensures h <= |test|
  {
    if |test| == 0 then 0
    else Hits(m, test[..|test| - 1]) + if Hit(m, test[|test| - 1]) then 1 else 0
  }

  /** Outputs are -1, 0 or +1, so a row of class 0 is a hit only when the
      score is exactly 0, and a row whose class value is none of the three
      is never a hit. */
  lemma HitNeedsExactClass(m: EnhancedModel, row: Instance)
    requires m.numFeatures <= |m.weights| && |row.values| == m.numFeatures
    requires m.standardise ==> Usable(m.stats, m.numFeatures)
    ensures row.classValue == 0.0 ==> (Hit(m, row) <==> ClassifyInstance(m, row).value.output == 0.0)
    ensures row.classValue !in {-1.0, 0.0, 1.0} ==> !Hit(m, row)
  {
  }

  /** A percentage of hits. */
  function Percent(hits: nat, n: nat): (p: real)
    requires 0 < n && hits <= n
    ensures 0.0 <= p <= 100.0
    ensures p == 100.0 <==> hits == n
    ensures p == 0.0 <==> hits == 0
  {
    (hits as real / n as real) * 100.0
  }

  /** `accuracy`: the percentage of hits on `test`; an empty test set gives
      Java's 0/0, NaN, here `None`. */
  method Accuracy(m: EnhancedModel, test: seq<Instance>) returns (acc: Option<real>)
    requires CanClassify(m, test)
    ensures acc.None? <==> |test| == 0
    ensures acc.Some? ==> acc.value == Percent(Hits(m, test), |test|)
    ensures acc == Scored(m, test)
  {
    var correct := 0;
    var i := 0;
    while i < |test|
      invariant 0 <= i <= |test|
      invariant correct == Hits(m, test[..i])
    {
      var answer := test[i].classValue;
      var a := ClassifyInstance(m, test[i]);
      if a.value.output == answer {
        correct := correct + 1;
      }
      assert test[..i + 1][..i] == test[..i];
      i := i + 1;
    }
    assert test[..|test|] == test;
    if |test| == 0 {
      acc := None;
    } else {
      acc := Some(Percent(correct, |test|));
    }
  }

  /** What `accuracy` returns on `test`: the percentage of hits, or Java's
      0/0, NaN (`None`), for an empty test set. */
  function Scored(m: EnhancedModel, test: seq<Instance>): (acc: Option<real>)
    requires CanClassify(m, test)
    ensures acc.None? <==> |test| == 0
    ensures acc.Some? ==> 0.0 <= acc.value <= 100.0
    ensures acc.Some? ==> (acc.value == 100.0 <==> Hits(m, test) == |test|)
  {
    if |test| == 0 then None else Some(Percent(Hits(m, test), |test|))
  }

  /** `onlineAccuracy >= offlineAccuracy` on Java doubles: a tie picks the
      online update, and a NaN on either side picks the offline one. */
  function ChooseOnline(onlineAccuracy: Option<real>, offlineAccuracy: Option<real>): (online: bool)
    ensures onlineAccuracy.Some? && onlineAccuracy == offlineAccuracy ==> online
    ensures onlineAccuracy.None? || offlineAccuracy.None? ==> !online
    ensures onlineAccuracy.Some? && offlineAccuracy.Some? ==>
      (online <==> onlineAccuracy.value >= offlineAccuracy.value)
  {
    match (onlineAccuracy, offlineAccuracy)
    case (Some(a), Some(b)) => a >= b
    case _ => false
  }

  /** `testModel`: train the shared weights on `train` in the given mode, then
      measure the accuracy on `test` with the statistics `trainStats` that
      `standardiseInstances(train)` computes, then reset the statistics.
      Nothing resets the weights: the evaluation leaves them where training
      ended. */
  method TestModel(m: EnhancedModel, mode: Mode, train: seq<Instance>, test: seq<Instance>, trainStats: Stats)
    returns (m': EnhancedModel, acc: Option<real>, steps: nat)
    requires Rectangular(train, m.numFeatures) && Rectangular(test, m.numFeatures)
    // the weights are read by a training iteration or by classifying a test row
    requires |test| > 0 || (|train| > 0 && m.stoppingCondition != 1) ==> m.numFeatures <= |m.weights|
    requires mode == Offline && |train| > 0 ==> m.numFeatures <= |m.offline|
    requires |trainStats.mean| == m.numFeatures && |trainStats.std| == m.numFeatures
    requires m.standardise && |test| > 0 ==> Usable(trainStats, m.numFeatures)
    ensures Trains(ConfigFor(m, mode), train, m.numFeatures, m.weights, m.offline, steps, m'.weights, m'.offline)
    ensures |m'.weights| == |m.weights| && |m'.offline| == |m.offline|
    ensures mode == Online ==> m'.offline == m.offline
    ensures acc.None? <==> |test| == 0
    ensures acc.Some? ==>
      (CanClassify(m'.(stats := trainStats), test)
       && acc.value == Percent(Hits(m'.(stats := trainStats), test), |test|))
    ensures CanClassify(m'.(stats := trainStats), test) && acc == Scored(m'.(stats := trainStats), test)
    ensures m' == m.(weights := m'.weights, offline := m'.offline, online := (mode == Online),
                     stats := ResetStats(m.numFeatures))
  {
    var nf := m.numFeatures;
    var final, capped;
    final, steps, capped := InnerBuild(ConfigFor(m, mode), train, nf, m.weights, m.offline);
    m' := m.(weights := final.weights, offline := final.offline, online := (mode == Online), stats := trainStats);
    acc := Accuracy(m', test);
    m' := m'.(stats := ResetStats(nf));
  }

  /** Both evaluations of `kFoldCrossValidate`, for the record: the split each
      used, how long it trained, the weights it left and the accuracy it scored. */
  datatype Evaluations = Evaluations(
    onlineTrain: seq<Instance>, onlineTest: seq<Instance>, onlineSteps: nat,
    onlineWeights: seq<real>, onlineAccuracy: Option<real>,
    offlineTrain: seq<Instance>, offlineTest: seq<Instance>, offlineSteps: nat,
    offlineWeights: seq<real>, offlineAccumulator: seq<real>, offlineAccuracy: Option<real>)

  /** What `kFoldCrossValidate` did when started from the model `m`.  Each
      evaluation splits the same shuffled copy of `data`, holding out fold
      `r1` (online) or `r2` (offline), so each split holds every row of `data`
      once.  The online evaluation trains from the model's weights, the
      offline one from where the online one left them, with a fresh
      accumulator; each accuracy is the hit rate on its test rows of the model
      its own training left, standardising with its training statistics. */
  predicate CrossValidated(m: EnhancedModel, data: seq<Instance>, perm: seq<nat>, r1: nat, r2: nat,
                           stats1: Stats, stats2: Stats, ev: Evaluations)
  {
    && m.k >= 2 && r1 < m.k - 1 && r2 < m.k - 1 && IsPermutation(perm, |data|)
    && ev.onlineTest == HeldOutTest(Permute(data, perm), m.k as nat, r1)
    && ev.onlineTrain == HeldOutTrain(Permute(data, perm), m.k as nat, r1)
    && ev.offlineTest == HeldOutTest(Permute(data, perm), m.k as nat, r2)
    && ev.offlineTrain == HeldOutTrain(Permute(data, perm), m.k as nat, r2)
    && multiset(ev.onlineTrain) + multiset(ev.onlineTest) == multiset(data)
    && multiset(ev.offlineTrain) + multiset(ev.offlineTest) == multiset(data)
    && Trains(ConfigFor(m, Online), ev.onlineTrain, m.numFeatures, m.weights, m.offline,
              ev.onlineSteps, ev.onlineWeights, m.offline)
    && Trains(ConfigFor(m, Offline), ev.offlineTrain, m.numFeatures, ev.onlineWeights, Zeros(m.numFeatures),
              ev.offlineSteps, ev.offlineWeights, ev.offlineAccumulator)
    && CanClassify(m.(weights := ev.onlineWeights, online := true, stats := stats1), ev.onlineTest)
    && ev.onlineAccuracy == Scored(m.(weights := ev.onlineWeights, online := true, stats := stats1), ev.onlineTest)
    && CanClassify(m.(weights := ev.offlineWeights, offline := ev.offlineAccumulator, online := false, stats := stats2),
                   ev.offlineTest)
    && ev.offlineAccuracy
         == Scored(m.(weights := ev.offlineWeights, offline := ev.offlineAccumulator, online := false, stats := stats2),
                   ev.offlineTest)
  }

  /** `kFoldCrossValidate` on `data` with `k >= 2`.  `perm` is the outcome of
      the shuffle, `r1` and `r2` the two draws of `nextInt(0, k - 1)`, and
      `stats1`, `stats2` the statistics of the two training sets.  The online
      evaluation starts from the model's weights, the offline one from where
      the online one left them, and the model keeps where the offline one left
      them. */
  method CrossValidate(m: EnhancedModel, data: seq<Instance>, perm: seq<nat>, r1: nat, r2: nat,
                       stats1: Stats, stats2: Stats)
    returns (m': EnhancedModel, ev: Evaluations)
    requires m.k >= 2 && r1 < m.k - 1 && r2 < m.k - 1
    requires Rectangular(data, m.numFeatures) && IsPermutation(perm, |data|)
    // the weights are read by a training iteration or by classifying a held-out row
    requires (|data| > 0 && m.stoppingCondition != 1) || |data| / m.k as nat > 0 ==> m.numFeatures <= |m.weights|
    requires |stats1.mean| == |stats1.std| == m.numFeatures && |stats2.mean| == |stats2.std| == m.numFeatures
    requires m.standardise ==> Usable(stats1, m.numFeatures) && Usable(stats2, m.numFeatures)
    ensures CrossValidated(m, data, perm, r1, r2, stats1, stats2, ev)
    ensures |ev.onlineTest| == |ev.offlineTest| == |data| / m.k as nat
    ensures ev.onlineAccuracy.None? <==> |data| / m.k as nat == 0
    ensures ev.offlineAccuracy.None? <==> |data| / m.k as nat == 0
    // the choice, and what is left of the statistics
    ensures m' == m.(weights := ev.offlineWeights, offline := ev.offlineAccumulator,
                     online := ChooseOnline(ev.onlineAccuracy, ev.offlineAccuracy),
                     stats := ResetStats(m.numFeatures))
  {
    var nf := m.numFeatures;
    var k: nat := m.k as nat;
    var cv := Permute(data, perm);
    PermutePreservesShape(data, perm, nf);
    PermuteKeepsRows(data, perm);
    var folds := FoldLayout(k, |cv|);
    var train1, test1 := CreateModel(cv, folds, k, r1);
    var train2, test2 := CreateModel(cv, folds, k, r2);
    RowsKeepShape(cv, train1, test1, nf);
    RowsKeepShape(cv, train2, test2, nf);
    var m1, acc1, steps1 := TestModel(m, Online, train1, test1, stats1);
    var m2 := m1.(offline := Zeros(nf));
    var m3, acc2, steps2 := TestModel(m2, Offline, train2, test2, stats2);
    m' := m3.(online := ChooseOnline(acc1, acc2));
    ev := Evaluations(train1, test1, steps1, m1.weights, acc1, train2, test2, steps2, m3.weights, m3.offline, acc2);
  }

  /** Rows moved between the training and the test list keep their width. */
  lemma RowsKeepShape(cv: seq<Instance>, train: seq<Instance>, test: seq<Instance>, nf: nat)
    requires Rectangular(cv, nf)
    requires multiset(train) + multiset(test) == multiset(cv)
    ensures Rectangular(train, nf) && Rectangular(test, nf)
  {
    forall i | 0 <= i < |train|
      ensures |train[i].values| == nf
    {
      assert train[i] in multiset(cv);
    }
    forall i | 0 <= i < |test|
      ensures |test[i].values| == nf
    {
      assert test[i] in multiset(cv);
    }
  }

  /** The outcome of `buildClassifier`. */
  datatype BuildStatus =
    | Built(steps: nat, capped: bool)
    | SchemaViolation    // `getCapabilities().testWithFail` rejected the dataset
    | BadFoldCount       // cross-validation with k < 2: `n / k`, the fold array or `nextInt(0, k - 1)` throws
    | IndexOutOfBounds   // supplied weights shorter than the feature count

  /** Whether `buildClassifier` on `n` rows reads the weights: the training
      loop runs at least once (rows to train on and a cap other than 1), or
      the cross-validation classifies a held-out row (`n / k > 0`). */
  predicate ReadsWeights(m: EnhancedModel, n: nat)
  {
    (n > 0 && m.stoppingCondition != 1) || (m.crossValidate && m.k >= 2 && n / m.k as nat > 0)
  }

  /** What `buildClassifier` promises about the settings it keeps, the
      exception it raises and the dataset it standardises in place. */
  predicate BuildSettings(m: EnhancedModel, data: seq<Instance>, nf: nat, schemaOk: bool, full: Stats,
                          m': EnhancedModel, data': seq<Instance>, status: BuildStatus)
    requires Rectangular(data, nf) && (m.standardise ==> Usable(full, nf))
  {
    var w0 := InitialWeights(m.weightsSet, m.weights, nf);
    && m'.weightsSet == m.weightsSet && m'.learningRate == m.learningRate && m'.bias == m.bias
    && m'.stoppingCondition == m.stoppingCondition && m'.k == m.k && m'.standardise == m.standardise
    && m'.crossValidate == m.crossValidate && m'.numFeatures == nf
    && (!schemaOk <==> status.SchemaViolation?)
    && (status.BadFoldCount? <==> schemaOk && m.crossValidate && m.k < 2)
    && (status.IndexOutOfBounds? <==> schemaOk && !(m.crossValidate && m.k < 2) && ReadsWeights(m, |data|) && |w0| < nf)
    && (!status.Built? ==> m'.weights == w0 && m'.phase == m.phase)
    && data' == (if schemaOk && m.standardise then StandardiseAll(data, full, nf) else data)
  }

  /** What a build that gets past its checks promises: cross-validation (when
      enabled) evaluates both update modes on splits of one shuffled copy,
      threading the weights from `w0` through both, and picks the mode with
      the better held-out accuracy; the final training run on `data` starts
      from the weights the cross-validation left; and training ends the
      training phase. */
  predicate BuildTraining(m: EnhancedModel, data: seq<Instance>, nf: nat, w0: seq<real>,
                          perm: seq<nat>, r1: nat, r2: nat, stats1: Stats, stats2: Stats,
                          m': EnhancedModel, status: BuildStatus, ev: Option<Evaluations>)
  {
    && status.Built?
    && m'.phase == Inference
    && (ev.Some? <==> m.crossValidate)
    && (ev.Some? ==> CrossValidated(m.(weights := w0, numFeatures := nf), data, perm, r1, r2, stats1, stats2, ev.value))
    && m'.online == (if ev.Some? then ChooseOnline(ev.value.onlineAccuracy, ev.value.offlineAccuracy) else m.online)
    && Trains(ConfigFor(m, ModeOf(m'.online)), data, nf,
              if ev.Some? then ev.value.offlineWeights else w0,
              if m'.online then m'.offline else Zeros(nf),
              status.steps, m'.weights, m'.offline)
    && status.steps <= Budget(m.stoppingCondition)
    && (status.capped <==> RunNumAfter(status.steps) == m.stoppingCondition)
  }

  /** The final training run of `buildClassifier`: a fresh accumulator for the
      offline update, `innerBuild` on the whole dataset in the chosen mode,
      then `training = false`. */
  method FinalRun(m: EnhancedModel, data: seq<Instance>) returns (m': EnhancedModel, status: BuildStatus)
    requires Rectangular(data, m.numFeatures)
    requires |data| > 0 && m.stoppingCondition != 1 ==> m.numFeatures <= |m.weights|
    ensures status.Built? && m'.phase == Inference
    ensures Trains(ConfigFor(m, ModeOf(m.online)), data, m.numFeatures, m.weights,
                   if m.online then m.offline else Zeros(m.numFeatures), status.steps, m'.weights, m'.offline)
    ensures status.steps <= Budget(m.stoppingCondition)
    ensures status.capped <==> RunNumAfter(status.steps) == m.stoppingCondition
    ensures m' == m.(weights := m'.weights, offline := m'.offline, phase := Inference)
    ensures m.online ==> m'.offline == m.offline
  {
    var nf := m.numFeatures;
    m' := m;
    if !m.online {
      m' := m'.(offline := Zeros(nf));
    }
    var final, steps, capped := InnerBuild(ConfigFor(m', ModeOf(m'.online)), data, nf, m'.weights, m'.offline);
    m' := m'.(weights := final.weights, offline := final.offline, phase := Inference);
    status := Built(steps, capped);
  }

  /** The part of `buildClassifier` after its checks: the cross-validation, if
      enabled, then the final training run. */
  method Train(m: EnhancedModel, data: seq<Instance>, perm: seq<nat>, r1: nat, r2: nat, stats1: Stats, stats2: Stats)
    returns (m': EnhancedModel, status: BuildStatus, ev: Option<Evaluations>)
    requires Rectangular(data, m.numFeatures) && (ReadsWeights(m, |data|) ==> m.numFeatures <= |m.weights|)
    requires m.crossValidate ==>
      && m.k >= 2 && IsPermutation(perm, |data|) && r1 < m.k - 1 && r2 < m.k - 1
      && |stats1.mean| == |stats1.std| == m.numFeatures && |stats2.mean| == |stats2.std| == m.numFeatures
      && (m.standardise ==> Usable(stats1, m.numFeatures) && Usable(stats2, m.numFeatures))
    ensures BuildTraining(m, data, m.numFeatures, m.weights, perm, r1, r2, stats1, stats2, m', status, ev)
    ensures m' == m.(weights := m'.weights, offline := m'.offline, online := m'.online, phase := Inference,
                     stats := m'.stats)
    ensures m.crossValidate ==> m'.stats == ResetStats(m.numFeatures)
    ensures !m.crossValidate ==> m'.stats == m.stats
  {
    var m1 := m;
    ev := None;
    if m.crossValidate {
      var e;
      m1, e := CrossValidate(m, data, perm, r1, r2, stats1, stats2);
      assert m.(weights := m.weights, numFeatures := m.numFeatures) == m;
      ev := Some(e);
    }
    m', status := FinalRun(m1, data);
    assert ConfigFor(m1, ModeOf(m'.online)) == ConfigFor(m, ModeOf(m'.online));
    assert m1.weights == if ev.Some? then ev.value.offlineWeights else m.weights;
  }

  /** `buildClassifier` of EnhancedLinearPerceptron on a dataset with `nf`
      feature columns.  `schemaOk` is the verdict of the capability check,
      `full` the statistics of the dataset, and `perm`, `r1`, `r2`, `stats1`,
      `stats2` the inputs of the cross-validation.  As written, a build that
      cross-validates leaves the zeroed statistics of `resetStandardise` behind. */
  method Build(m: EnhancedModel, data: seq<Instance>, nf: nat, schemaOk: bool, full: Stats,
               perm: seq<nat>, r1: nat, r2: nat, stats1: Stats, stats2: Stats)
    returns (m': EnhancedModel, data': seq<Instance>, status: BuildStatus, ev: Option<Evaluations>)
    requires Rectangular(data, nf)
    requires |full.mean| == nf && |full.std| == nf && (m.standardise ==> Usable(full, nf))
    requires m.crossValidate && m.k >= 2 ==> IsPermutation(perm, |data|) && r1 < m.k - 1 && r2 < m.k - 1
    requires m.crossValidate ==>
      |stats1.mean| == |stats1.std| == nf && |stats2.mean| == |stats2.std| == nf
      && (m.standardise ==> Usable(stats1, nf) && Usable(stats2, nf))
    ensures BuildSettings(m, data, nf, schemaOk, full, m', data', status)
    ensures status.Built? ==>
      BuildTraining(m, data', nf, InitialWeights(m.weightsSet, m.weights, nf), perm, r1, r2, stats1, stats2,
                    m', status, ev)
    ensures !status.Built? ==> ev.None?
    ensures status.Built? && m.standardise && !m.crossValidate ==> m'.stats == full
    ensures status.Built? && m.crossValidate ==> m'.stats == ResetStats(nf)
    // with neither flag set the statistics are left alone
    ensures !m.standardise && !m.crossValidate ==> m'.stats == m.stats
  {
    var w := InitialWeights(m.weightsSet, m.weights, nf);
    m' := m.(weights := w, numFeatures := nf);
    data' := data;
    ev := None;
    if !schemaOk {
      return m', data', BuildStatus.SchemaViolation, ev;
    }
    if m.standardise {
      m' := m'.(stats := full);
      data' := StandardiseAll(data, full, nf);
    }
    if m.crossValidate && m.k < 2 {
      return m', data', BadFoldCount, ev;
    }
    if ReadsWeights(m, |data|) && |w| < nf {
      return m', data', BuildStatus.IndexOutOfBounds, ev;
    }
    var entry := m';
    m', status, ev := Train(entry, data', perm, r1, r2, stats1, stats2);
    TrainingFromEntry(m, entry.stats, data', nf, w, perm, r1, r2, stats1, stats2, m', status, ev);
  }

  /** The training part of a build depends on the model it starts from only
      through its settings, the weights `w0` and the width `nf`. */
  lemma TrainingFromEntry(m: EnhancedModel, st: Stats, data: seq<Instance>, nf: nat, w0: seq<real>,
                          perm: seq<nat>, r1: nat, r2: nat, stats1: Stats, stats2: Stats,
                          m': EnhancedModel, status: BuildStatus, ev: Option<Evaluations>)
    requires BuildTraining(m.(weights := w0, numFeatures := nf, stats := st), data, nf, w0, perm, r1, r2,
                           stats1, stats2, m', status, ev)
    ensures BuildTraining(m, data, nf, w0, perm, r1, r2, stats1, stats2, m', status, ev)
  {
    var e := m.(weights := w0, numFeatures := nf, stats := st);
    assert e.(weights := w0, numFeatures := nf) == m.(weights := w0, numFeatures := nf).(stats := st);
    if ev.Some? {
      var v := ev.value;
      var a := m.(weights := w0, numFeatures := nf);
      assert e.(weights := w0, numFeatures := nf).(weights := v.onlineWeights, online := true, stats := stats1)
        == a.(weights := v.onlineWeights, online := true, stats := stats1);
      assert e.(weights := w0, numFeatures := nf).(weights := v.offlineWeights, offline := v.offlineAccumulator,
                                                   online := false, stats := stats2)
        == a.(weights := v.offlineWeights, offline := v.offlineAccumulator, online := false, stats := stats2);
    }
  }

  /** A model that standardises with the zeroed statistics of `resetStandardise`
      cannot classify any row that has a feature: every feature is divided by 0. */
  lemma ResetStatsBlockClassification(m: EnhancedModel, row: Instance)
    requires m.standardise && m.stats == ResetStats(m.numFeatures) && 0 < m.numFeatures
    requires m.numFeatures <= |m.weights| && m.numFeatures <= |row.values|
    ensures ClassifyInstance(m, row).None?
  {
    assert m.stats.std[0] == 0.0;
  }

  /** `buildClassifier` as evidently intended: after the cross-validation the
      model goes on standardising with the statistics of the whole dataset, the
      same statistics its training data was standardised with, so it can
      classify every row of the dataset's width. */
  method BuildKeepingStats(m: EnhancedModel, data: seq<Instance>, nf: nat, schemaOk: bool, full: Stats,
                           perm: seq<nat>, r1: nat, r2: nat, stats1: Stats, stats2: Stats)
    returns (m': EnhancedModel, data': seq<Instance>, status: BuildStatus, ev: Option<Evaluations>)
    requires Rectangular(data, nf)
    requires |full.mean| == nf && |full.std| == nf && (m.standardise ==> Usable(full, nf))
    requires m.crossValidate && m.k >= 2 ==> IsPermutation(perm, |data|) && r1 < m.k - 1 && r2 < m.k - 1
    requires m.crossValidate ==>
      |stats1.mean| == |stats1.std| == nf && |stats2.mean| == |stats2.std| == nf
      && (m.standardise ==> Usable(stats1, nf) && Usable(stats2, nf))
    ensures BuildSettings(m, data, nf, schemaOk, full, m', data', status)
    ensures status.Built? ==>
      BuildTraining(m, data', nf, InitialWeights(m.weightsSet, m.weights, nf), perm, r1, r2, stats1, stats2,
                    m', status, ev)
    ensures status.Built? && m.standardise ==> m'.stats == full
    ensures status.Built? && m.standardise && nf <= |m'.weights| ==>
      forall row: Instance :: |row.values| == nf ==> ClassifyInstance(m', row).Some?
  {
    m', data', status, ev := Build(m, data, nf, schemaOk, full, perm, r1, r2, stats1, stats2);
    if status.Built? && m.standardise {
      m' := m'.(stats := full);
    }
  }
}
