/** The single linear perceptron: the three-way sign decision, the update rule and
    the shared online/offline training loop (LinearPerceptron, and the loop of
    EnhancedLinearPerceptron, which differs only by the offline mode). */
module Perceptron {
  import opened Common

  /** The `training` flag: the bias enters the score only while it is set. */
  datatype Phase = Training | Inference

  /** Where a correction goes: straight into the weights, or into the offline
      accumulator that is merged into the weights at each wraparound. */
  datatype Mode = Online | Offline

  /** Sum of `w[i] * x[i]` over the first `nf` columns, left to right. */
  function Dot(w: seq<real>, x: seq<real>, nf: nat): real
    requires nf <= |w| && nf <= |x|
  {
    if nf == 0 then 0.0 else Dot(w, x, nf - 1) + w[nf - 1] * x[nf - 1]
  }

  /** The value whose sign is the decision. */
  function Score(w: seq<real>, x: seq<real>, nf: nat, phase: Phase, bias: Int32): real
    requires nf <= |w| && nf <= |x|
  {
    Dot(w, x, nf) + if phase == Training then bias as real else 0.0
  }

  /** `classifier`: -1, 0 or +1 by the sign of the score; an exact zero is its own answer. */
  function Classify(w: seq<real>, x: seq<real>, nf: nat, phase: Phase, bias: Int32): (r: real)
    requires nf <= |w| && nf <= |x|
    ensures r == -1.0 || r == 0.0 || r == 1.0
    ensures r == -1.0 <==> Score(w, x, nf, phase, bias) < 0.0
    ensures r == 1.0 <==> Score(w, x, nf, phase, bias) > 0.0
    ensures r == 0.0 <==> Score(w, x, nf, phase, bias) == 0.0
  {
    var s := Score(w, x, nf, phase, bias);
    if s < 0.0 then -1.0 else if s > 0.0 then 1.0 else 0.0
  }

  /** Once training is over the bias no longer matters: the decision is the sign
      of the dot product alone, whatever the bias. */
  lemma BiasOnlyWhileTraining(w: seq<real>, x: seq<real>, nf: nat, bias: Int32, other: Int32)
    requires nf <= |w| && nf <= |x|
    ensures Classify(w, x, nf, Inference, bias) == Classify(w, x, nf, Inference, other)
    ensures Classify(w, x, nf, Inference, bias) == Classify(w, x, nf, Training, 0)
  {
  }

  /** The training target: -1 for class value 0, +1 for any other class value. */
  function Target(classValue: real): (t: real)
    ensures t == -1.0 || t == 1.0
    ensures t == -1.0 <==> classValue == 0.0
  {
    if classValue == 0.0 then -1.0 else 1.0
  }

  /** The update step size after a misprediction: half the learning rate times
      the gap between the target and the output, so no step when they agree. */
  function Adjustment(lr: real, t: real, result: real): (a: real)
    ensures result == t ==> a == 0.0
    ensures a + a == lr * (t - result)
  {
    (0.5 * lr) * (t - result)
  }

  /** A misprediction always moves the weights towards the target: the step has
      the target's sign, and its size is the learning rate (the output was the
      opposite sign) or half of it (the output was 0). */
  lemma AdjustmentTowardsTarget(lr: real, t: real, result: real)
    requires lr > 0.0
    requires t == -1.0 || t == 1.0
    requires result == -1.0 || result == 0.0 || result == 1.0
    requires result != t
    ensures Adjustment(lr, t, result) != 0.0
    ensures Adjustment(lr, t, result) > 0.0 <==> t > 0.0
    ensures result == -t ==> Adjustment(lr, t, result) == lr * t
    ensures result == 0.0 ==> Adjustment(lr, t, result) == 0.5 * lr * t
  {
    if t == 1.0 {
      if result == 0.0 {
        assert Adjustment(lr, t, result) == 0.5 * lr;
      } else {
        assert Adjustment(lr, t, result) == lr;
      }
    } else {
      if result == 0.0 {
        assert Adjustment(lr, t, result) == -0.5 * lr;
      } else {
        assert Adjustment(lr, t, result) == -lr;
      }
    }
  }

  /** `weights(arrayToChange, adjustment, instance)`: the first `nf` entries gain
      `adj * x[j]`; the rest are untouched. */
  function AddScaled(a: seq<real>, adj: real, x: seq<real>, nf: nat): (r: seq<real>)
    requires nf <= |a| && nf <= |x|
    ensures |r| == |a|
    ensures forall j :: 0 <= j < nf ==> r[j] - a[j] == adj * x[j]
    ensures forall j :: nf <= j < |a| ==> r[j] == a[j]
    ensures adj == 0.0 ==> r == a
  {
    seq(|a|, j requires 0 <= j < |a| => if j < nf then a[j] + adj * x[j] else a[j])
  }

  /** The wraparound merge of the offline accumulator into the weights. */
  function MergeInto(w: seq<real>, offline: seq<real>, nf: nat): (r: seq<real>)
    requires nf <= |w| && nf <= |offline|
    ensures |r| == |w|
    ensures forall j :: 0 <= j < nf ==> r[j] - w[j] == offline[j]
    ensures forall j :: nf <= j < |w| ==> r[j] == w[j]
    // merging an empty accumulator changes nothing
    ensures AllZero(offline, nf) ==> r == w
  {
    seq(|w|, j requires 0 <= j < |w| => if j < nf then w[j] + offline[j] else w[j])
  }

  /** The accumulator after the merge: its first `nf` entries are zeroed. */
  function ClearPrefix(a: seq<real>, nf: nat): (r: seq<real>)
    requires nf <= |a|
    ensures |r| == |a|
    ensures AllZero(r, nf)
    ensures forall j :: nf <= j < |a| ==> r[j] == a[j]
    // clearing an empty accumulator changes nothing
    ensures AllZero(a, nf) ==> r == a
  {
    seq(|a|, j requires 0 <= j < |a| => if j < nf then 0.0 else a[j])
  }

  predicate AllZero(a: seq<real>, nf: nat)
    requires nf <= |a|
  {
    forall j :: 0 <= j < nf ==> a[j] == 0.0
  }

  /** The fixed parameters of one run of the training loop. */
  datatype Config = Config(lr: real, bias: Int32, stoppingCondition: Int32, mode: Mode, phase: Phase)

  /** The loop's variables: the weights, the offline accumulator, the cursor `x`,
      the consecutive-correct counter `cont` and the iteration counter `runNum`. */
  datatype LoopState = LoopState(weights: seq<real>, offline: seq<real>, x: nat, cont: nat, runNum: Int32)

  /** The state the loop starts from. */
  function Start(weights: seq<real>, offline: seq<real>): LoopState
  {
    LoopState(weights, offline, 0, 0, 1)
  }

  /** A state the loop body can run from: a row under the cursor and arrays long
      enough for the `nf` columns the body reads and writes. */
  predicate Ready(cfg: Config, data: seq<Instance>, nf: nat, s: LoopState)
  {
    && Rectangular(data, nf)
    && s.x < |data|
    && nf <= |s.weights|
    && (cfg.mode == Offline ==> nf <= |s.offline|)
  }

  /** The loop's exit test: a full pass without a correction, or the iteration cap. */
  predicate Done(cfg: Config, n: nat, s: LoopState)
  {
    s.cont == n || s.runNum == cfg.stoppingCondition
  }

  /** The correction the current row asks for: the adjustment on a misprediction, 0 otherwise. */
  function Correction(cfg: Config, w: seq<real>, row: Instance, nf: nat): real
    requires nf <= |w| && nf <= |row.values|
  {
    var result := Classify(w, row.values, nf, cfg.phase, cfg.bias);
    var t := Target(row.classValue);
    if result != t then Adjustment(cfg.lr, t, result) else 0.0
  }

  /** In offline mode, pending corrections are only ever younger than the current
      pass: if the accumulator is not empty, every correct answer counted in
      `cont` was given since the last wraparound. */
  predicate Settled(cfg: Config, nf: nat, s: LoopState)
    requires cfg.mode == Offline ==> nf <= |s.offline|
  {
    cfg.mode == Offline ==> AllZero(s.offline, nf) || s.cont <= s.x
  }

  /** The first half of the loop body: classify the row under the cursor and,
      on a misprediction, add the correction to the weights (online) or to the
      accumulator (offline) and reset `cont`; otherwise count one more correct answer. */
  function Apply(cfg: Config, data: seq<Instance>, nf: nat, s: LoopState): (s': LoopState)
    requires Ready(cfg, data, nf, s)
    ensures Ready(cfg, data, nf, s')
    ensures |s'.weights| == |s.weights| && |s'.offline| == |s.offline|
    ensures s'.x == s.x && s'.runNum == s.runNum
  {
    var row := data[s.x];
    var c := Correction(cfg, s.weights, row, nf);
    if Classify(s.weights, row.values, nf, cfg.phase, cfg.bias) == Target(row.classValue) then
      s.(cont := s.cont + 1)
    else if cfg.mode == Online then
      s.(weights := AddScaled(s.weights, c, row.values, nf), cont := 0)
    else
      s.(offline := AddScaled(s.offline, c, row.values, nf), cont := 0)
  }

  /** The second half: move the cursor, wrapping to 0 after the last row, where
      offline mode merges the accumulator into the weights and empties it; then
      count the iteration. */
  function Advance(cfg: Config, n: nat, nf: nat, s: LoopState): (s': LoopState)
    requires s.x < n && nf <= |s.weights|
    requires cfg.mode == Offline ==> nf <= |s.offline|
    ensures |s'.weights| == |s.weights| && |s'.offline| == |s.offline|
    ensures s'.x == if s.x == n - 1 then 0 else s.x + 1
    ensures s'.cont == s.cont && s'.runNum == Inc(s.runNum)
  {
    if s.x == n - 1 then
      if cfg.mode == Offline then
        LoopState(MergeInto(s.weights, s.offline, nf), ClearPrefix(s.offline, nf), 0, s.cont, Inc(s.runNum))
      else
        s.(x := 0, runNum := Inc(s.runNum))
    else
      s.(x := s.x + 1, runNum := Inc(s.runNum))
  }

  /** One iteration of the loop body in `innerBuild`, as a reference definition. */
  function Step(cfg: Config, data: seq<Instance>, nf: nat, s: LoopState): (s': LoopState)
    requires Ready(cfg, data, nf, s)
    ensures Ready(cfg, data, nf, s')
    ensures |s'.weights| == |s.weights| && |s'.offline| == |s.offline|
    ensures s'.x == if s.x == |data| - 1 then 0 else s.x + 1
    ensures s'.runNum == Inc(s.runNum)
    ensures s'.cont == s.cont + 1 || s'.cont == 0
  {
    Advance(cfg, |data|, nf, Apply(cfg, data, nf, s))
  }

  /** `cont` counts consecutive correct answers: a correct answer adds one, a
      misprediction resets it to 0. */
  lemma StepCounts(cfg: Config, data: seq<Instance>, nf: nat, s: LoopState)
    requires Ready(cfg, data, nf, s)
    ensures Step(cfg, data, nf, s).cont ==
      if Classify(s.weights, data[s.x].values, nf, cfg.phase, cfg.bias) == Target(data[s.x].classValue)
      then s.cont + 1 else 0
  {
  }

  /** Online mode: a misprediction's correction lands in the weights at once,
      a correct answer leaves them alone, and the accumulator is never touched. */
  lemma OnlineStep(cfg: Config, data: seq<Instance>, nf: nat, s: LoopState)
    requires Ready(cfg, data, nf, s) && cfg.mode == Online
    ensures Step(cfg, data, nf, s).offline == s.offline
    ensures forall j :: 0 <= j < nf ==>
      Step(cfg, data, nf, s).weights[j]
        == s.weights[j] + Correction(cfg, s.weights, data[s.x], nf) * data[s.x].values[j]
    ensures forall j :: nf <= j < |s.weights| ==> Step(cfg, data, nf, s).weights[j] == s.weights[j]
  {
    var a := Apply(cfg, data, nf, s);
    assert Step(cfg, data, nf, s).weights == a.weights;
    var row := data[s.x];
    if Classify(s.weights, row.values, nf, cfg.phase, cfg.bias) == Target(row.classValue) {
      assert Correction(cfg, s.weights, row, nf) == 0.0;
      assert a.weights == s.weights;
    }
  }

  /** Offline mode: the weights move only at the wraparound, which leaves the
      accumulator empty, and the sum of weights and accumulator moves exactly as
      the online weights would. */
  lemma OfflineStep(cfg: Config, data: seq<Instance>, nf: nat, s: LoopState)
    requires Ready(cfg, data, nf, s) && cfg.mode == Offline
    ensures s.x != |data| - 1 ==> Step(cfg, data, nf, s).weights == s.weights
    ensures s.x == |data| - 1 ==> AllZero(Step(cfg, data, nf, s).offline, nf)
    ensures forall j :: 0 <= j < nf ==>
      Step(cfg, data, nf, s).weights[j] + Step(cfg, data, nf, s).offline[j]
        == s.weights[j] + s.offline[j] + Correction(cfg, s.weights, data[s.x], nf) * data[s.x].values[j]
  {
    var row := data[s.x];
    var a := Apply(cfg, data, nf, s);
    assert a.weights == s.weights;
    assert forall j :: 0 <= j < nf ==>
      a.offline[j] == s.offline[j] + Correction(cfg, s.weights, row, nf) * row.values[j];
  }

  /** Offline mode keeps `Settled`: a correction resets `cont` to 0, and the
      wraparound empties the accumulator. */
  lemma StepSettles(cfg: Config, data: seq<Instance>, nf: nat, s: LoopState)
    requires Ready(cfg, data, nf, s) && Settled(cfg, nf, s)
    ensures Settled(cfg, nf, Step(cfg, data, nf, s))
  {
    if cfg.mode == Offline {
      OfflineStep(cfg, data, nf, s);
    }
  }

  /** The state after `k` iterations of the loop body from `s` (ignoring the exit test). */
  function Iterate(cfg: Config, data: seq<Instance>, nf: nat, s: LoopState, k: nat): (r: LoopState)
    requires Ready(cfg, data, nf, s)
    ensures Ready(cfg, data, nf, r)
    ensures |r.weights| == |s.weights| && |r.offline| == |s.offline|
    decreases k
  {
    if k == 0 then s else Step(cfg, data, nf, Iterate(cfg, data, nf, s, k - 1))
  }

  /** What every run of the loop body keeps, however many iterations: online
      mode never touches the accumulator, and offline mode stays `Settled`. */
  lemma {:induction false} IterateKeeps(cfg: Config, data: seq<Instance>, nf: nat, s: LoopState, k: nat)
    requires Ready(cfg, data, nf, s) && Settled(cfg, nf, s)
    ensures Settled(cfg, nf, Iterate(cfg, data, nf, s, k))
    ensures cfg.mode == Online ==> Iterate(cfg, data, nf, s, k).offline == s.offline
    decreases k
  {
    if k > 0 {
      var prev := Iterate(cfg, data, nf, s, k - 1);
      IterateKeeps(cfg, data, nf, s, k - 1);
      StepSettles(cfg, data, nf, prev);
      if cfg.mode == Online {
        OnlineStep(cfg, data, nf, prev);
      }
    }
  }

  /** `runNum` after `steps` increments from 1, with Java's wraparound. */
  function RunNumAfter(steps: nat): Int32
    requires steps < IntModulus
  {
    if 1 + steps <= IntMax then 1 + steps else 1 + steps - IntModulus
  }

  /** How many iterations the cap `stoppingCondition` allows: `runNum` starts at 1,
      so a cap of 1 allows none, and a cap of 0 or below is only reached after
      `runNum` has wrapped around. */
  function Budget(stoppingCondition: Int32): (b: nat)
    ensures b < IntModulus
    ensures stoppingCondition >= 1 ==> b == stoppingCondition - 1
    ensures stoppingCondition <= 0 ==> b == IntModulus + stoppingCondition - 1
  {
    if stoppingCondition >= 1 then stoppingCondition - 1 else stoppingCondition - 1 + IntModulus
  }

  /** Counting from 1, `runNum` meets the cap exactly after `Budget` iterations
      and at no other count below 2^32. */
  lemma CapReachedExactly(stoppingCondition: Int32, steps: nat)
    requires steps < IntModulus
    ensures RunNumAfter(steps) == stoppingCondition <==> steps == Budget(stoppingCondition)
  {
  }

  /** The body of the `innerBuild` loop, statement by statement. */
  method LoopBody(cfg: Config, data: seq<Instance>, nf: nat, s0: LoopState) returns (s: LoopState)
    requires Ready(cfg, data, nf, s0)
    ensures s == Step(cfg, data, nf, s0)
  {
    var w, off, x, cont, runNum := s0.weights, s0.offline, s0.x, s0.cont, s0.runNum;
    var row := data[x];
    var result := Classify(w, row.values, nf, cfg.phase, cfg.bias);
    var t := Target(row.classValue);
    if result != t {
      cont := 0;
      var adjustment := Adjustment(cfg.lr, t, result);
      if cfg.mode == Online {
        w := AddScaled(w, adjustment, row.values, nf);
      } else {
        off := AddScaled(off, adjustment, row.values, nf);
      }
    } else {
      cont := cont + 1;
    }
    if x == |data| - 1 {
      if cfg.mode == Offline {
        w := MergeInto(w, off, nf);
        off := ClearPrefix(off, nf);
      }
      x := 0;
    } else {
      x := x + 1;
    }
    runNum := Inc(runNum);
    s := LoopState(w, off, x, cont, runNum);
  }

  /** None of the first `steps` states from `start` passes the exit test. */
  predicate NoEarlierExit(cfg: Config, data: seq<Instance>, nf: nat, start: LoopState, steps: nat)
    requires Ready(cfg, data, nf, start)
    decreases steps
  {
    steps == 0 ||
    (NoEarlierExit(cfg, data, nf, start, steps - 1) && !Done(cfg, |data|, Iterate(cfg, data, nf, start, steps - 1)))
  }

  /** `NoEarlierExit` spelled out: the loop could not have stopped at any earlier count. */
  lemma {:induction false} NoEarlierExitAt(cfg: Config, data: seq<Instance>, nf: nat, start: LoopState, steps: nat, k: nat)
    requires Ready(cfg, data, nf, start)
    requires NoEarlierExit(cfg, data, nf, start, steps) && k < steps
    ensures !Done(cfg, |data|, Iterate(cfg, data, nf, start, k))
    decreases steps
  {
    if k < steps - 1 {
      NoEarlierExitAt(cfg, data, nf, start, steps - 1, k);
    }
  }

  /** The `while` loop of `innerBuild` on a non-empty dataset: it runs the
      reference step until the first state that passes the exit test. */
  method RunLoop(cfg: Config, data: seq<Instance>, nf: nat, start: LoopState) returns (final: LoopState, steps: nat)
    requires Ready(cfg, data, nf, start) && start.cont == 0 && start.runNum == 1
    ensures final == Iterate(cfg, data, nf, start, steps)
    ensures NoEarlierExit(cfg, data, nf, start, steps)
    ensures Done(cfg, |data|, final)
    ensures final.cont <= |data|
    ensures steps <= Budget(cfg.stoppingCondition) && final.runNum == RunNumAfter(steps)
  {
    var s := start;
    steps := 0;
    while s.cont != |data| && s.runNum != cfg.stoppingCondition
      invariant s.cont <= |data|
      invariant s.x < |data|
      invariant steps <= Budget(cfg.stoppingCondition) && s.runNum == RunNumAfter(steps)
      invariant s == Iterate(cfg, data, nf, start, steps)
      invariant NoEarlierExit(cfg, data, nf, start, steps)
      decreases Budget(cfg.stoppingCondition) - steps
    {
      CapReachedExactly(cfg.stoppingCondition, steps);
      s := LoopBody(cfg, data, nf, s);
      steps := steps + 1;
    }
    final := s;
  }

  /** `innerBuild`: the training loop.  `capped` is the iteration-limit notice,
      raised exactly when `runNum` equals the cap at exit. */
  method InnerBuild(cfg: Config, data: seq<Instance>, nf: nat, weights: seq<real>, offline: seq<real>)
    returns (final: LoopState, steps: nat, capped: bool)
    requires Rectangular(data, nf)
    // the arrays are only read once the loop body runs
    requires !NoIteration(cfg, |data|) ==> nf <= |weights| && (cfg.mode == Offline ==> nf <= |offline|)
    ensures |final.weights| == |weights| && |final.offline| == |offline|
    // an empty dataset counts as converged, and a cap of 1 is met, before the first iteration
    ensures NoIteration(cfg, |data|) ==> steps == 0 && final == Start(weights, offline)
    // the loop runs the reference step, and stops at the first state passing the exit test
    ensures Ready(cfg, data, nf, Start(weights, offline)) ==>
      final == Iterate(cfg, data, nf, Start(weights, offline), steps)
      && NoEarlierExit(cfg, data, nf, Start(weights, offline), steps)
    ensures Done(cfg, |data|, final)
    // counters and cursor
    ensures final.cont <= |data|
    ensures final.x < |data| || final.x == 0 == |data|
    ensures steps <= Budget(cfg.stoppingCondition) && final.runNum == RunNumAfter(steps)
    ensures capped <==> final.runNum == cfg.stoppingCondition
    ensures final.cont < |data| ==> capped && steps == Budget(cfg.stoppingCondition)
    // the accumulator: untouched online, and empty after an offline run that converged
    ensures cfg.mode == Online ==> final.offline == offline
    ensures cfg.mode == Offline && 0 < |data| == final.cont ==> AllZero(final.offline, nf)
  {
    if NoIteration(cfg, |data|) {
      // `cont == numInstances()` or `runNum == stoppingCondition` already holds
      final, steps := Start(weights, offline), 0;
    } else {
      final, steps := RunLoop(cfg, data, nf, Start(weights, offline));
      IterateKeeps(cfg, data, nf, Start(weights, offline), steps);
    }
    CapReachedExactly(cfg.stoppingCondition, steps);
    capped := final.runNum == cfg.stoppingCondition;
  }

  /** The loop test fails before the first iteration: an empty dataset already
      counts as converged, and a cap of 1 is met by the initial `runNum`.  Only
      then does `innerBuild` finish without reading the arrays. */
  predicate NoIteration(cfg: Config, n: nat)
  {
    n == 0 || cfg.stoppingCondition == 1
  }

  /** One finished `innerBuild` on `data` took the weights from `w` to `w'` and
      the accumulator from `off` to `off'` in `steps` iterations: when the loop
      test fails at once nothing happens; otherwise the loop ran the reference step from
      the start state and stopped at the first state passing the exit test. */
  predicate Trains(cfg: Config, data: seq<Instance>, nf: nat, w: seq<real>, off: seq<real>,
                   steps: nat, w': seq<real>, off': seq<real>)
  {
    if NoIteration(cfg, |data|) then
      steps == 0 && w' == w && off' == off
    else
      && Ready(cfg, data, nf, Start(w, off))
      && NoEarlierExit(cfg, data, nf, Start(w, off), steps)
      && Done(cfg, |data|, Iterate(cfg, data, nf, Start(w, off), steps))
      && Iterate(cfg, data, nf, Start(w, off), steps).weights == w'
      && Iterate(cfg, data, nf, Start(w, off), steps).offline == off'
  }

  /** A LinearPerceptron object: its weights, whether `setWeights` supplied
      them, the learning rate, bias and cap, the `training` flag, and the
      number of feature columns of the dataset it was last built on. */
  datatype Model = Model(
    weights: seq<real>, weightsSet: bool,
    learningRate: real, bias: Int32, stoppingCondition: Int32,
    phase: Phase, numFeatures: nat)

  /** A freshly constructed LinearPerceptron. */
  const Fresh: Model := Model([], false, 1.0, 0, 0, Training, 0)

  /** The outcome of `buildClassifier`. */
  datatype Status =
    | Trained(steps: nat, capped: bool)
    | SchemaViolation    // `getCapabilities().testWithFail` rejected the dataset
    | IndexOutOfBounds   // supplied weights shorter than the feature count

  /** The weights training starts from: the array given to `setWeights`,
      unchanged, or else `nf` ones. */
  function InitialWeights(weightsSet: bool, weights: seq<real>, nf: nat): (w: seq<real>)
    ensures weightsSet ==> w == weights
    ensures !weightsSet ==> |w| == nf && forall i :: 0 <= i < nf ==> w[i] == 1.0
  {
    if weightsSet then weights else seq(nf, i => 1.0)
  }

  /** `setWeights`: whatever the dataset, training will start from `w`. */
  function SetWeights(m: Model, w: seq<real>): (m': Model)
    ensures forall nf :: InitialWeights(m'.weightsSet, m'.weights, nf) == w
  {
    m.(weights := w, weightsSet := true)
  }

  /** The loop parameters of a model in the given update mode. */
  function ConfigOf(m: Model, mode: Mode): Config
  {
    Config(m.learningRate, m.bias, m.stoppingCondition, mode, m.phase)
  }

  /** `buildClassifier` of LinearPerceptron on a dataset with `nf` feature
      columns.  `schemaOk` is the verdict of the capability check, which runs
      after the default weights are installed. */
  method Build(m: Model, data: seq<Instance>, nf: nat, schemaOk: bool) returns (m': Model, status: Status)
    requires Rectangular(data, nf)
    ensures m'.weightsSet == m.weightsSet && m'.learningRate == m.learningRate
    ensures m'.bias == m.bias && m'.stoppingCondition == m.stoppingCondition
    ensures m'.numFeatures == nf
    ensures !schemaOk <==> status == SchemaViolation
    // the weights are first read by the loop body, which a cap of 1 never runs
    ensures status == IndexOutOfBounds <==>
      schemaOk && !NoIteration(ConfigOf(m, Online), |data|) && |InitialWeights(m.weightsSet, m.weights, nf)| < nf
    // the default weights are installed even when the capability check then fails
    ensures !status.Trained? ==> m'.weights == InitialWeights(m.weightsSet, m.weights, nf) && m'.phase == m.phase
    // training ends the training phase for good
    ensures status.Trained? ==> m'.phase == Inference
    ensures status.Trained? ==> |m'.weights| == |InitialWeights(m.weightsSet, m.weights, nf)|
    // the weights are those of the first state of the online loop that passes the exit test
    ensures status.Trained? ==>
      Trains(ConfigOf(m, Online), data, nf, InitialWeights(m.weightsSet, m.weights, nf), [], status.steps, m'.weights, [])
    ensures status.Trained? ==>
      status.steps <= Budget(m.stoppingCondition)
      && (status.capped <==> RunNumAfter(status.steps) == m.stoppingCondition)
  {
    var w := InitialWeights(m.weightsSet, m.weights, nf);
    m' := m.(weights := w, numFeatures := nf);
    if !schemaOk {
      return m', SchemaViolation;
    }
    if !NoIteration(ConfigOf(m, Online), |data|) && |w| < nf {
      return m', IndexOutOfBounds;
    }
    var final, steps, capped := InnerBuild(ConfigOf(m, Online), data, nf, w, []);
    m' := m'.(weights := final.weights, phase := Inference);
    status := Trained(steps, capped);
  }

  /** `classifyInstance` of LinearPerceptron: the decision over the model's own
      feature count, with the bias only if the model was never built. */
  function ClassifyInstance(m: Model, row: Instance): (r: real)
    requires m.numFeatures <= |m.weights| && m.numFeatures <= |row.values|
    ensures r == -1.0 || r == 0.0 || r == 1.0
    ensures m.phase == Inference ==>
      (r == 1.0 <==> Dot(m.weights, row.values, m.numFeatures) > 0.0)
      && (r == -1.0 <==> Dot(m.weights, row.values, m.numFeatures) < 0.0)
  {
    Classify(m.weights, row.values, m.numFeatures, m.phase, m.bias)
  }
}
