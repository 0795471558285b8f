# Linear perceptrons and an ensemble of them, in Dafny

This project models the three classifiers of a small Weka coursework
repository. Each is written as pure functions and short methods over immutable
datatypes, and properties of each are proved.

- **LinearPerceptron** is a single-layer perceptron. Its training loop visits
  the rows cyclically. On every misclassification it corrects the weights by
  `0.5 * learningRate * (target - output)` times the row. It stops after a
  full pass with no correction, or when its `int` iteration counter reaches
  `stoppingCondition`.
- **EnhancedLinearPerceptron** adds three things:
  - optional standardisation of the features;
  - an offline ("batch") update mode, which collects corrections in an
    accumulator and merges them at the end of every pass;
  - an optional k-fold cross-validation, which trains an online and an
    offline copy and keeps the mode whose held-out accuracy is at least as
    good.
- **LinearPerceptronEnsemble** has fifty plain perceptrons. Each is trained on
  a shuffled copy of the data with a random subset of feature columns deleted.
  The members are combined by a plurality vote.

The modules follow the source:

| file | module | contents |
|---|---|---|
| `common.dfy` | `Common` | Java `int`, dataset rows, shuffles, `Option` |
| `perceptron.dfy` | `Perceptron` | the loop body, the loop, `buildClassifier`, classification |
| `folds.dfy` | `Folds` | the fold layout and the train/test split of cross-validation |
| `enhanced.dfy` | `Enhanced` | standardisation, accuracy, cross-validation, the enhanced build |
| `sampling.dfy` | `Sampling` | the ensemble's feature count, feature draws, sort and column deletion |
| `voting.dfy` | `Voting` | vote counting, the winner, vote proportions |
| `ensemble.dfy` | `Ensemble` | the ensemble's `classifyInstance`, `distributionForInstance` and `buildClassifier` |

The model makes the following choices:

- **Numbers.**
  - Doubles are modelled as `real`.
  - Java `int` fields are `Int32`. The iteration counter wraps from 2^31-1
    to -2^31, as Java's `runNum++` does.
- **Data.**
  - A Weka dataset is a `seq<Instance>`. The class column is kept apart from
    the feature values.
  - Weka's copies (`new Instances(...)`, `add`) are value copies, which
    immutable sequences give for free.
- **Outside inputs.** Randomness and the statistics Weka computes become
  parameters:
  - the outcome of `Collections.shuffle` is a permutation;
  - each `nextInt` draw is a number below its bound;
  - the capability check is a boolean, one per dataset checked;
  - each column's mean and standard deviation are given.
- **Exceptions.** An exception the source throws becomes a status or an
  `Option` value:
  - `IndexOutOfBounds`, `SchemaViolation` and `BadFoldCount`;
  - the ensemble's `NegativeFeatureCount`, `TooManyFeatures` and `NoRows`.
- **The training loop.**
  - It is specified against a reference step function (`Perceptron.Step`)
    and its `k`-fold iterate (`Perceptron.Iterate`).
  - A finished run is characterised by `Perceptron.Trains`: the first iterate
    that passes the loop's exit test.

## Model

| member | source | states |
|---|---|---|
| Common.PermuteKeepsRows | src/EnhancedLinearPerceptron.java:171-172 | A shuffled copy holds exactly the rows of the data, each as often as in the data: the shuffle only reorders. |
| Perceptron.Classify | src/LinearPerceptron.java:88-104 | The answer is -1, 1 or 0 exactly when the weighted sum of the first `nf` features, plus the bias while training, is negative, positive or zero. |
| Perceptron.BiasOnlyWhileTraining | src/LinearPerceptron.java:93-95 | Once training is over, the bias no longer affects any answer: every bias gives the answer that bias 0 gives during training. |
| Perceptron.Target | src/LinearPerceptron.java:56-60 | The target is -1 exactly for class value 0, and 1 for every other class value. |
| Perceptron.Adjustment | src/LinearPerceptron.java:63 | The step size is half the learning rate times the gap between target and answer. It is 0 when they agree. |
| Perceptron.AdjustmentTowardsTarget | src/LinearPerceptron.java:61-65 | A misclassification always gives a nonzero adjustment with the sign of the target. It is the full `learningRate * t` when the answer was the opposite sign, and half of it when the answer was 0. |
| Perceptron.AddScaled | src/EnhancedLinearPerceptron.java:132-136 | Each of the first `nf` entries grows by the adjustment times the matching feature. The later entries are unchanged, and an adjustment of 0 changes nothing. |
| Perceptron.MergeInto | src/EnhancedLinearPerceptron.java:88-93 | At a wraparound, each of the first `nf` weights grows by its accumulator entry and the rest are unchanged. Merging an empty accumulator changes nothing. |
| Perceptron.ClearPrefix | src/EnhancedLinearPerceptron.java:88-93 | After the merge the first `nf` accumulator entries are 0 and the rest are unchanged. |
| Perceptron.Apply | src/EnhancedLinearPerceptron.java:66-86 | The first half of an iteration keeps the cursor and the counter, the array lengths, and the conditions for the next iteration. |
| Perceptron.Advance | src/EnhancedLinearPerceptron.java:87-99 | The cursor moves to the next row and wraps to 0 after the last one. `cont` is kept, and `runNum` grows by one with Java's wrap. |
| Perceptron.Step | src/EnhancedLinearPerceptron.java:65-100 | One iteration moves the cursor cyclically and counts one more iteration. It either adds one to `cont` or resets it, and it keeps the array lengths. |
| Perceptron.StepCounts | src/LinearPerceptron.java:61-68 | `cont` counts consecutive correct answers: a correct answer adds one, and a misclassification resets it to 0. |
| Perceptron.OnlineStep | src/EnhancedLinearPerceptron.java:73-78 | In online mode one iteration adds the correction times the row to each of the first `nf` weights. The other weights and the accumulator are left unchanged. |
| Perceptron.OfflineStep | src/EnhancedLinearPerceptron.java:79-97 | In offline mode the weights move only at the end of a pass, and that step empties the accumulator. The sum of weights and accumulator moves exactly as online weights would. |
| Perceptron.StepSettles | src/EnhancedLinearPerceptron.java:83-93 | Offline mode keeps this invariant: while corrections are pending, every counted correct answer belongs to the current pass. |
| Perceptron.IterateKeeps | src/EnhancedLinearPerceptron.java:65-100 | The invariant of `StepSettles` holds after any number of iterations. Online mode never touches the accumulator. |
| Perceptron.Budget | src/LinearPerceptron.java:48-53 | The number of iterations before `runNum` reaches the cap. It is `stoppingCondition - 1` for a positive cap. For a cap of 0 or below it is `2^32 + stoppingCondition - 1`, because the counter wraps. |
| Perceptron.CapReachedExactly | src/LinearPerceptron.java:53-78 | The counter equals the cap exactly when the number of iterations equals the budget. |
| Perceptron.LoopBody | src/EnhancedLinearPerceptron.java:66-99 | The imperative loop body computes the reference step. |
| Perceptron.NoEarlierExitAt | src/LinearPerceptron.java:53 | When the loop stopped after `steps` iterations, no earlier iterate passed the exit test. |
| Perceptron.RunLoop | src/LinearPerceptron.java:53-77 | The loop ends at the `steps`-th iterate of the reference step. That is the first iterate with a full correct pass or with the counter at the cap, and `steps` is within the budget. |
| Perceptron.InnerBuild | src/EnhancedLinearPerceptron.java:57-104 | An empty dataset, or a cap of 1, fails the loop test at once: nothing is read and nothing changes. Otherwise training ends at the first iterate passing the exit test. The cap message is printed exactly when the counter reached the cap, and a run that stopped short of a correct pass hit the cap. Online mode keeps the accumulator, and a converged offline run ends with it empty. |
| Perceptron.InitialWeights | src/LinearPerceptron.java:30-37 | Training starts from the weights given to `setWeights`, unchanged, or else from `nf` ones. |
| Perceptron.SetWeights | src/LinearPerceptron.java:136-139 | After `setWeights(w)`, training starts from `w` whatever the dataset. |
| Perceptron.Build | src/LinearPerceptron.java:26-43 | The default weights are installed before the capability check. A rejected dataset is reported. Weights too short for the columns are reported exactly when the loop body runs, so not for an empty dataset or a cap of 1. Otherwise the weights are those of a finished online run from the initial weights, and the training phase ends. The parameters are kept. |
| Perceptron.ClassifyInstance | src/LinearPerceptron.java:84-86 | The answer is -1, 0 or 1. After training it is the sign of the weighted sum, with no bias. |
| Folds.FoldLayout | src/EnhancedLinearPerceptron.java:175-183 | Fold `i` lists the positions `i*m` to `i*m + m - 1`, where `m = n/k`. |
| Folds.LayoutInRange | src/EnhancedLinearPerceptron.java:175-183 | Every fold position is a valid row position. |
| Folds.LayoutDisjoint | src/EnhancedLinearPerceptron.java:175-183 | Different folds, and different slots of one fold, name different rows. |
| Folds.LayoutCovers | src/EnhancedLinearPerceptron.java:175-183 | Every row among the first `k*m` belongs to exactly the fold `p / m`, at slot `p % m`. |
| Folds.EvensAt | src/EnhancedLinearPerceptron.java:237-240 | The rows the removal loop moves to the test set are the even positions of the stretch it walks. |
| Folds.OddsAt | src/EnhancedLinearPerceptron.java:237-240 | The rows the removal loop leaves behind are the odd positions of that stretch. |
| Folds.EvensOddsSplit | src/EnhancedLinearPerceptron.java:237-240 | Together, the even and odd positions of a stretch are the stretch as a multiset. |
| Folds.HeldOutFits | src/EnhancedLinearPerceptron.java:232-240 | With the drawn fold `r < k-1`, the `2*m` positions the removal loop walks stay inside the data. |
| Folds.HeldOutPartition | src/EnhancedLinearPerceptron.java:228-245 | The test set has `m` rows, the training set has the rest, and together they are the shuffled data as a multiset. |
| Folds.HeldOutTest | src/EnhancedLinearPerceptron.java:228-245 | The test set of held-out fold `r` has `n / k` rows. |
| Folds.HeldOutTrain | src/EnhancedLinearPerceptron.java:228-245 | The training set of held-out fold `r` has the other `n - n / k` rows. With the test set it partitions the shuffled data. |
| Folds.MoveFold | src/EnhancedLinearPerceptron.java:236-240 | The removal loop, whose `remove` shifts later rows down, moves the even positions of `cv[r*m .. r*m+2m)` to the test set. The odd positions stay in the training set. |
| Folds.CreateModel | src/EnhancedLinearPerceptron.java:228-245 | The training and test sets of one `createModel` call: their sizes, their exact contents (`HeldOutTrain`, `HeldOutTest`), and a partition of the shuffled data. |
| Enhanced.ResetStats | src/EnhancedLinearPerceptron.java:165-168 | After a reset, both statistics arrays have length `nf`. The all-zero deviations then make standardisation impossible. |
| Enhanced.StandardiseInstance | src/EnhancedLinearPerceptron.java:158-163 | Each feature becomes `(v - mean) / std`: the standardised value times the deviation, plus the mean, gives back the original. The class value is kept. |
| Enhanced.StandardiseRoundTrip | src/EnhancedLinearPerceptron.java:158-163 | Standardising and unstandardising are inverse in both orders. |
| Enhanced.NeutralStatsChangeNothing | src/EnhancedLinearPerceptron.java:158-163 | With mean 0 and deviation 1, standardisation changes nothing. |
| Enhanced.StandardiseAll | src/EnhancedLinearPerceptron.java:138-156 | Standardising the dataset keeps its shape, and every row unstandardises back to the original row. |
| Enhanced.ModeOf | src/EnhancedLinearPerceptron.java:76-82 | The `online` flag selects online updates exactly when it is set. |
| Enhanced.ClassifyInstance | src/EnhancedLinearPerceptron.java:107-112 | When standardising, the row is standardised first. That fails (`None`) with a zero deviation or with statistics shorter than the row. The answer is the perceptron decision on the row as classified. |
| Enhanced.HitNeedsExactClass | src/EnhancedLinearPerceptron.java:209-213 | Accuracy compares the raw answer with the class value. So a row of class 0 counts as correct only when the answer is 0, and a class value other than -1, 0 or 1 never counts. |
| Enhanced.Percent | src/EnhancedLinearPerceptron.java:215 | The accuracy lies between 0 and 100. It is 100 exactly when every row is correct and 0 exactly when none is. |
| Enhanced.Accuracy | src/EnhancedLinearPerceptron.java:206-216 | An empty test set gives NaN. Otherwise the result is the percentage of test rows classified correctly (`Scored`). |
| Enhanced.Scored | src/EnhancedLinearPerceptron.java:206-216 | The accuracy is NaN exactly for an empty test set. Otherwise it lies between 0 and 100, and it is 100 exactly when every row is a hit. |
| Enhanced.ChooseOnline | src/EnhancedLinearPerceptron.java:196-201 | Online is chosen on a tie. A NaN on either side chooses offline. Otherwise online is chosen exactly when its accuracy is at least the offline one. |
| Enhanced.TestModel | src/EnhancedLinearPerceptron.java:219-226 | The model is trained on the training set in the given mode, from its current weights. The accuracy is the hit rate of the trained model on the test set, standardising with the training statistics, which are then reset. |
| Enhanced.CrossValidate | src/EnhancedLinearPerceptron.java:170-203 | Each evaluation holds out fold `r1` or `r2` of one shuffled copy, so each split holds every row of the data once. The offline copy trains from the online copy's weights with a fresh accumulator. Each accuracy is the hit rate on its test rows of the model its training left. The mode with the better of the two accuracies is kept, and so are the last copy's weights. |
| Enhanced.RowsKeepShape | src/EnhancedLinearPerceptron.java:228-245 | A split of a rectangular dataset gives rectangular parts. |
| Enhanced.FinalRun | src/EnhancedLinearPerceptron.java:51-54 | The offline mode starts from a fresh accumulator. The run is a finished one in the chosen mode, the online mode keeps the accumulator, and the training phase ends. |
| Enhanced.Train | src/EnhancedLinearPerceptron.java:50-54 | Cross-validation runs when asked for. The accumulator is fresh before the final offline build. The final build is a finished run in the chosen mode, and the training phase ends. |
| Enhanced.Build | src/EnhancedLinearPerceptron.java:34-55 | The error cases come in the source's order: capability check, fold count, short weights. Short weights are reported only when a training iteration runs or cross-validation classifies a held-out row. The dataset is standardised with the full statistics when asked. After cross-validation the statistics are the reset ones, not the full ones. With neither standardisation nor cross-validation the statistics are left alone. |
| Enhanced.ResetStatsBlockClassification | src/EnhancedLinearPerceptron.java:107-112 | With standardisation on and the statistics reset, no row can be classified. |
| Enhanced.BuildKeepingStats | src/EnhancedLinearPerceptron.java:34-55 | The same build, except that the full statistics are kept after cross-validation. Every row of the right width can then be classified. |
| Sampling.FeatureCount | src/LinearPerceptronEnsemble.java:27 | `(int)(nf * p)` truncates towards zero and saturates at the `int` bounds. |
| Sampling.ProportionGivesFeatureCount | src/LinearPerceptronEnsemble.java:27 | A proportion between 0 and 1 asks for between 0 and `nf` features. |
| Sampling.ShrinkZeroesOnlyDrawn | src/LinearPerceptronEnsemble.java:43-50 | Shrinking the pool after a draw loses its last slot; every other entry is kept, or zeroed because it equals the drawn value, and an entry different from the drawn value is always kept. |
| Sampling.ShrinkKeepsShape | src/LinearPerceptronEnsemble.java:43-50 | Shrinking the pool keeps its entries valid feature indices with no nonzero repeats. A drawn nonzero value leaves the pool. |
| Sampling.SampleFeatures | src/LinearPerceptronEnsemble.java:33-51 | The draw loop gives the reference draws. They are feature indices, and only 0 can be drawn twice. |
| Sampling.InsertSorted | src/LinearPerceptronEnsemble.java:54 | Insertion into a sorted sequence keeps it sorted. |
| Sampling.SortAsc | src/LinearPerceptronEnsemble.java:54 | Sorting gives an ascending permutation of the draws. |
| Sampling.OnlyZeroRepeatsByCount | src/LinearPerceptronEnsemble.java:43-54 | "Only 0 repeats" holds exactly when no nonzero value occurs twice in the multiset. |
| Sampling.SortKeepsOnlyZeroRepeats | src/LinearPerceptronEnsemble.java:54 | Sorting keeps "only 0 repeats". |
| Sampling.SortKeepsRange | src/LinearPerceptronEnsemble.java:54 | Sorting keeps every entry a feature index. |
| Sampling.StrictAfterPositive | src/LinearPerceptronEnsemble.java:54-57 | In the sorted draws, entries after a positive one grow by at least one per position. |
| Sampling.DeletionIndicesInRange | src/LinearPerceptronEnsemble.java:55-57 | Every index the descending deletion uses names a column still present at that moment. |
| Sampling.DeleteAt | src/LinearPerceptronEnsemble.java:56 | Deleting column `c` shifts the later columns down by one and keeps the class value. |
| Sampling.DeleteOne | src/LinearPerceptronEnsemble.java:55-57 | After one deletion, the remaining deletions fit the narrower dataset and finish the same job. |
| Sampling.DeleteColumns | src/LinearPerceptronEnsemble.java:55-57 | The deletion loop keeps the rows and their class values, and leaves `nf - y` feature columns. |
| Voting.Counted | src/LinearPerceptronEnsemble.java:81-96 | Each entry keeps its label and a proportion of 0. It has a vote exactly when some member output its label, and at most one vote per member. |
| Voting.Votes | src/LinearPerceptronEnsemble.java:88-96 | Each label collects at most one vote per member output, so at most labels times members votes are cast. |
| Voting.VotesSnoc | src/LinearPerceptronEnsemble.java:88-96 | One more member output adds one vote per label equal to it. |
| Voting.VotesAtMostMembers | src/LinearPerceptronEnsemble.java:88-96 | With distinct labels, no more votes are cast than there are members. |
| Voting.RepeatedLabelCountsTwice | src/LinearPerceptronEnsemble.java:90-95 | For any labels, a label listed twice gets two votes from one member output equal to it. |
| Voting.UnmatchedLabelGetsNoVotes | src/LinearPerceptronEnsemble.java:90-95 | A label no member outputs gets no votes. |
| Voting.AddVotes | src/LinearPerceptronEnsemble.java:90-95 | One output adds a vote to every entry whose label equals it. The number added is the label's number of copies. |
| Voting.Tally | src/LinearPerceptronEnsemble.java:81-96 | Each label's count is the number of member outputs equal to it. The vote total is the sum over labels. |
| Voting.FirstMax | src/LinearPerceptronEnsemble.java:98-103 | The first position holding the largest count. |
| Voting.SelectWinner | src/LinearPerceptronEnsemble.java:98-104 | The answer is the label of the first entry with the most votes, or 0 when no label got a vote. |
| Voting.Proportions | src/LinearPerceptronEnsemble.java:111-115 | An entry with votes gets a proportion that, times its count, gives the running total. Entries without votes keep theirs. |
| Ensemble.Outputs | src/LinearPerceptronEnsemble.java:88-89 | Every member answers -1, 0 or 1. |
| Ensemble.ClassifyInstance | src/LinearPerceptronEnsemble.java:80-105 | Before a build, or with member 0 empty, nothing changes. Otherwise the entries are the fresh counts for this row, and the running total grows by the votes cast. The answer is the plurality label, or 0 when no label got a vote. |
| Ensemble.OnlyPerceptronAnswersScore | src/LinearPerceptronEnsemble.java:89-95 | A label other than -1, 0 or 1 never gets a vote. |
| Ensemble.AtMostOneVotePerMember | src/LinearPerceptronEnsemble.java:88-96 | With distinct labels, one vote adds at most fifty to the total. |
| Ensemble.DistributionForInstance | src/LinearPerceptronEnsemble.java:109-117 | A vote followed by the proportions. The entries returned are the ones the ensemble keeps. |
| Ensemble.ReduceMember | src/LinearPerceptronEnsemble.java:21-61 | A member's dataset is the shuffled copy with its sorted draws deleted from the highest index down. The removed indices are kept. |
| Ensemble.TrainMember | src/LinearPerceptronEnsemble.java:64-66 | A member is a fresh perceptron trained online from all-one weights on its reduced dataset. |
| Ensemble.BuildMembers | src/LinearPerceptronEnsemble.java:21-66 | All fifty members are built, member `c` from its own shuffle and draws. |
| Ensemble.BuildEnsemble | src/LinearPerceptronEnsemble.java:18-72 | The failure cases come in the source's order. The capability check fails exactly when some member's reduced dataset fails it. After a build every member is trained on its reduced dataset. A vote on the first row of member 0's dataset is recorded, and it adds to the running total kept from earlier votes. |

## Left out

- `Main.java`, Weka's `Instances`/`Capabilities` internals and the
  `System.out` messages are not part of this model. The capability check is
  a boolean input, and the cap message is the `capped` flag.
- IEEE doubles are modelled as reals.
  - Rounding, overflow to infinity, and NaN from `0/0` or `x/0` are not
    modelled, except in two places:
    - the NaN accuracy of an empty test set, written `None`;
    - a zero standard deviation, under which `Enhanced.ClassifyInstance`
      answers `None`. It also answers `None` when the statistics arrays are
      shorter than the row, where Java throws an array index exception.
  - `Enhanced.Build` and `Enhanced.CrossValidate` require nonzero deviations
    for the statistics they standardise with, because the source's
    division would produce infinities there.
- The means and standard deviations Weka computes (`meanOrMode`, `variance`)
  are inputs, not computed.
- `Double.parseDouble` of the class labels is not modelled: the ensemble
  is given the numeric labels. A label that does not parse would throw.
- `Ensemble.ClassifyInstance`: `totalVotes` is a Java `float`. It is modelled
  as an exact real, so its rounding above 2^24 votes is not modelled.
- After an exception, the model does not describe the state beyond what the
  source has certainly done. For example, the ensemble keeps the new
  `attributeProportion`, and a failed perceptron build keeps the default
  weights. The members the ensemble replaces before a failing member build
  are not described.
- `Ensemble.ClassifyInstance` requires that every member can read the row
  (`Readable`). A row narrower than a member's feature count would make Weka
  read past the row, which is not modelled.
- Members are classified on the first `numFeatures` values of the row they
  are given, whatever columns that member deleted. This follows the source
  and is modelled as is.
- `Perceptron.ClassifyInstance` requires weights and a row at least as long
  as the model's feature count. Java throws an array index exception
  otherwise, and that exception is not modelled.
- `Enhanced.ClassifyInstance` has the same requirement on the weights and the
  row, for the same reason.
- A `stoppingCondition` of 0 or below does not mean "no cap". Because the
  counter wraps, the loop stops after `2^32 + stoppingCondition - 1`
  iterations (`Perceptron.Budget`).
- `getCapabilities`, the getters and the remaining setters are plain field
  accesses and are not modelled separately.

## Findings

| source | as written | input that shows it | evidently intended | confidence | as-written member | corrected member |
|---|---|---|---|---|---|---|
| src/EnhancedLinearPerceptron.java:219-226 | With `standardise` and `crossValidate` both on, `testModel` resets the mean and deviation arrays to zeros. `buildClassifier` never recomputes them, so every later `classifyInstance` divides by a zero deviation. | Any dataset with at least one feature, `setStandardise(true)`, `setCrossValidate(true)`, then `classifyInstance` on any row | Classification after the build standardises with the statistics of the full training set | not executed | Enhanced.Build, Enhanced.ResetStatsBlockClassification | Enhanced.BuildKeepingStats |
