/** LinearPerceptronEnsemble: fifty plain perceptrons, each trained on its own
    shuffled copy of the data with a random subset of the feature columns
    removed, and combined by a plurality vote. */
module Ensemble {
  import opened Common
  import Perceptron
  import opened Sampling
  import opened Voting

  /** `ensembleSize`, never changed after construction. */
  const EnsembleSize: nat := 50

  /** A LinearPerceptronEnsemble object: the members (none before the first
      build), each member's dataset, the removed feature indices of each member,
      the proportion of features removed, the running vote total, the entries
      of the last vote and the numeric class labels (`Double.parseDouble` of the
      class attribute's values). */
  datatype EnsembleModel = EnsembleModel(
    members: seq<Perceptron.Model>,
    memberData: seq<seq<Instance>>,
    attributesRemoved: seq<seq<int>>,
    attributeProportion: real,
    totalVotes: real,
    classifications: seq<Classification>,
    classes: seq<real>)

  /** A freshly constructed ensemble. */
  const Initial: EnsembleModel := EnsembleModel([], [], [], 0.5, 0.0, [], [])

  /** Every member can classify `row`: it was built with no more features than
      it has weights, and `row` has at least as many values as it reads. */
  predicate Readable(members: seq<Perceptron.Model>, row: Instance)
  {
    forall i :: 0 <= i < |members| ==>
      members[i].numFeatures <= |members[i].weights| && members[i].numFeatures <= |row.values|
  }

  /** The members' answers for `row`, in member order. */
  function Outputs(members: seq<Perceptron.Model>, row: Instance): (r: seq<real>)
    requires Readable(members, row)
    ensures |r| == |members|
    ensures forall i :: 0 <= i < |r| ==> r[i] == -1.0 || r[i] == 0.0 || r[i] == 1.0
  {
    seq(|members|, i requires 0 <= i < |members| => Perceptron.ClassifyInstance(members[i], row))
  }

  /** `classifyInstance` reads the first row of member 0's dataset for the class
      labels, so it needs a built ensemble whose member 0 has rows. */
  predicate CanClassify(e: EnsembleModel)
  {
    |e.members| == EnsembleSize && |e.memberData| == EnsembleSize && |e.memberData[0]| > 0
  }

  /** `classifyInstance` of the ensemble.  Before a build, or when member 0 has
      no rows, it throws (None) and changes nothing.  Otherwise the entries are
      rebuilt from the labels, every member output adds a vote to each equal
      label and to the running total, and the answer is the label of the first
      entry with the most votes, or 0 when no label got a vote. */
  method ClassifyInstance(e: EnsembleModel, row: Instance) returns (e': EnsembleModel, answer: Option<real>)
    requires Readable(e.members, row)
    ensures answer.None? <==> !CanClassify(e)
    ensures answer.None? ==> e' == e
    ensures answer.Some? ==>
      && e'.classifications == Counted(e.classes, Outputs(e.members, row))
      && e'.totalVotes == e.totalVotes + Votes(e.classes, Outputs(e.members, row)) as real
      && e' == e.(classifications := e'.classifications, totalVotes := e'.totalVotes)
    ensures answer.Some? && (forall j :: 0 <= j < |e'.classifications| ==> e'.classifications[j].count == 0) ==>
      answer.value == 0.0
    ensures answer.Some? && |e'.classifications| > 0 && e'.classifications[FirstMax(e'.classifications)].count > 0 ==>
      answer.value == e'.classifications[FirstMax(e'.classifications)].classification
  {
    if !CanClassify(e) {
      return e, None;
    }
    var outputs := Outputs(e.members, row);
    var cl, votes := Tally(e.classes, outputs);
    var winner := SelectWinner(cl);
    e' := e.(classifications := cl, totalVotes := e.totalVotes + votes as real);
    answer := Some(winner);
  }

  /** A perceptron answers -1, 0 or 1, so a label outside those three never
      gets a vote. */
  lemma OnlyPerceptronAnswersScore(e: EnsembleModel, row: Instance, j: nat)
    requires Readable(e.members, row) && j < |e.classes|
    requires e.classes[j] != -1.0 && e.classes[j] != 0.0 && e.classes[j] != 1.0
    ensures Counted(e.classes, Outputs(e.members, row))[j].count == 0
  {
    UnmatchedLabelGetsNoVotes(Outputs(e.members, row), e.classes[j]);
  }

  /** With distinct labels the fifty members add at most fifty votes. */
  lemma AtMostOneVotePerMember(e: EnsembleModel, row: Instance)
    requires Readable(e.members, row) && |e.members| == EnsembleSize
    requires forall v :: multiset(e.classes)[v] <= 1
    ensures Votes(e.classes, Outputs(e.members, row)) <= EnsembleSize
  {
    VotesAtMostMembers(e.classes, Outputs(e.members, row));
  }

  /** `distributionForInstance`: a vote as `classifyInstance` casts it, then
      every entry with votes gets the running total divided by its count.  The
      entries returned are the ones the ensemble keeps. */
  method DistributionForInstance(e: EnsembleModel, row: Instance)
    returns (e': EnsembleModel, dist: Option<seq<Classification>>)
    requires Readable(e.members, row)
    ensures dist.None? <==> !CanClassify(e)
    ensures dist.None? ==> e' == e
    ensures dist.Some? ==>
      && e'.totalVotes == e.totalVotes + Votes(e.classes, Outputs(e.members, row)) as real
      && dist.value == e'.classifications
      && e'.classifications == Proportions(Counted(e.classes, Outputs(e.members, row)), e'.totalVotes)
      && e' == e.(classifications := e'.classifications, totalVotes := e'.totalVotes)
  {
    var voted, answer := ClassifyInstance(e, row);
    if answer.None? {
      return e, None;
    }
    var cl := Proportions(voted.classifications, voted.totalVotes);
    e' := voted.(classifications := cl);
    dist := Some(cl);
  }

  /** The outcome of the ensemble's `buildClassifier`. */
  datatype BuildStatus =
    | Built
    | NegativeFeatureCount   // `new int[ensembleSize][y]` with `y < 0`
    | TooManyFeatures        // `nextInt(0)` once the pool of features is empty
    | SchemaViolation        // a member's capability check rejected its dataset
    | NoRows                 // `getInstance(0)` on member 0's empty dataset

  /** The `nf` ones a fresh perceptron starts from. */
  function Ones(nf: nat): (w: seq<real>)
    ensures w == Perceptron.InitialWeights(Perceptron.Fresh.weightsSet, Perceptron.Fresh.weights, nf)
  {
    seq(nf, i => 1.0)
  }

  /** Member `c`'s dataset after the sampling loop: the shuffled copy with the
      sorted drawn features deleted from the highest down. */
  predicate Reduced(data: seq<Instance>, nf: nat, y: nat, perm: seq<nat>, draws: seq<nat>,
                    rows: seq<Instance>, removed: seq<int>)
  {
    && IsPermutation(perm, |data|) && y <= nf && |draws| == y && DrawsFit(nf, draws)
    && removed == SortAsc(Drawn(nf, draws))
    && Deletable(removed, nf, y)
    && Rectangular(data, nf)
    && rows == DeleteFrom(Permute(data, perm), removed, nf, y)
    && |rows| == |data| && Rectangular(rows, nf - y)
  }

  /** A fresh perceptron after `buildClassifier` on `rows`: trained online on
      them from all-one weights, with nothing else changed. */
  predicate TrainedFresh(rows: seq<Instance>, nf: nat, member: Perceptron.Model, report: Perceptron.Status)
  {
    && report.Trained?
    && member == Perceptron.Fresh.(weights := member.weights, phase := Perceptron.Inference, numFeatures := nf)
    && |member.weights| == nf
    && Perceptron.Trains(Perceptron.ConfigOf(Perceptron.Fresh, Perceptron.Online), rows, nf,
                         Ones(nf), [], report.steps, member.weights, [])
  }

  /** Member `c` after `buildClassifier`. */
  predicate MemberBuilt(data: seq<Instance>, nf: nat, y: nat, perm: seq<nat>, draws: seq<nat>,
                        member: Perceptron.Model, rows: seq<Instance>, removed: seq<int>,
                        report: Perceptron.Status)
  {
    Reduced(data, nf, y, perm, draws, rows, removed) && y <= nf && TrainedFresh(rows, nf - y, member, report)
  }

  /** The sampling and deletion loops of `buildClassifier` for one member:
      shuffle a copy, draw and sort the features to remove, delete them. */
  method ReduceMember(data: seq<Instance>, nf: nat, perm: seq<nat>, draws: seq<nat>)
    returns (rows: seq<Instance>, removed: seq<int>)
    requires Rectangular(data, nf) && IsPermutation(perm, |data|) && DrawsFit(nf, draws)
    ensures Reduced(data, nf, |draws|, perm, draws, rows, removed)
    ensures InRange(removed, nf) && OnlyZeroRepeats(removed)
  {
    var shuffled := Permute(data, perm);
    PermutePreservesShape(data, perm, nf);
    var toMove := SampleFeatures(nf, draws);
    removed := SortAsc(toMove);
    SortKeepsOnlyZeroRepeats(toMove);
    SortKeepsRange(toMove, nf);
    DeletionIndicesInRange(removed, nf);
    rows := DeleteColumns(shuffled, nf, removed);
  }

  /** The build loop of `buildClassifier` for one member: a fresh perceptron
      built on its reduced dataset, which passes the capability check. */
  method TrainMember(rows: seq<Instance>, nf: nat) returns (member: Perceptron.Model, report: Perceptron.Status)
    requires Rectangular(rows, nf)
    ensures TrainedFresh(rows, nf, member, report)
  {
    member, report := Perceptron.Build(Perceptron.Fresh, rows, nf, true);
  }

  /** All members built: member `c` from shuffle `perms[c]` and draws `draws[c]`. */
  predicate AllBuilt(data: seq<Instance>, nf: nat, y: nat, perms: seq<seq<nat>>, draws: seq<seq<nat>>,
                     members: seq<Perceptron.Model>, memberData: seq<seq<Instance>>,
                     removed: seq<seq<int>>, reports: seq<Perceptron.Status>)
  {
    && |perms| == |draws| == |members| == |memberData| == |removed| == |reports|
    && forall c :: 0 <= c < |members| ==>
         MemberBuilt(data, nf, y, perms[c], draws[c], members[c], memberData[c], removed[c], reports[c])
  }

  /** The shuffles and draws fit the data: one permutation of the rows per
      member, and, when the feature count is in range, `y` fitting draws per member. */
  predicate RandomnessFits(data: seq<Instance>, nf: nat, y: int, perms: seq<seq<nat>>, draws: seq<seq<nat>>)
  {
    && |perms| == EnsembleSize && |draws| == EnsembleSize
    && (forall c :: 0 <= c < EnsembleSize ==> IsPermutation(perms[c], |data|))
    && (0 <= y <= nf ==> forall c :: 0 <= c < EnsembleSize ==> |draws[c]| == y && DrawsFit(nf, draws[c]))
  }

  /** Adding a built member keeps the collection built. */
  lemma AllBuiltSnoc(data: seq<Instance>, nf: nat, y: nat, perms: seq<seq<nat>>, draws: seq<seq<nat>>,
                     members: seq<Perceptron.Model>, memberData: seq<seq<Instance>>,
                     removed: seq<seq<int>>, reports: seq<Perceptron.Status>,
                     perm: seq<nat>, d: seq<nat>, member: Perceptron.Model, rows: seq<Instance>,
                     gone: seq<int>, report: Perceptron.Status)
    requires AllBuilt(data, nf, y, perms, draws, members, memberData, removed, reports)
    requires MemberBuilt(data, nf, y, perm, d, member, rows, gone, report)
    ensures AllBuilt(data, nf, y, perms + [perm], draws + [d], members + [member], memberData + [rows],
                     removed + [gone], reports + [report])
  {
  }

  /** The member loops of `buildClassifier` for a feature count in range. */
  method BuildMembers(data: seq<Instance>, nf: nat, y: nat, perms: seq<seq<nat>>, draws: seq<seq<nat>>)
    returns (members: seq<Perceptron.Model>, memberData: seq<seq<Instance>>,
             removed: seq<seq<int>>, reports: seq<Perceptron.Status>)
    requires Rectangular(data, nf) && y <= nf && RandomnessFits(data, nf, y, perms, draws)
    ensures |members| == EnsembleSize
    ensures AllBuilt(data, nf, y, perms, draws, members, memberData, removed, reports)
  {
    members, memberData, removed, reports := [], [], [], [];
    var c := 0;
    while c < EnsembleSize
      invariant 0 <= c <= EnsembleSize
      invariant |members| == |memberData| == |removed| == |reports| == c
      invariant AllBuilt(data, nf, y, perms[..c], draws[..c], members, memberData, removed, reports)
    {
      var rows, gone := ReduceMember(data, nf, perms[c], draws[c]);
      var member, report := TrainMember(rows, nf - y);
      TakeOneMore(perms, c);
      TakeOneMore(draws, c);
      AllBuiltSnoc(data, nf, y, perms[..c], draws[..c], members, memberData, removed, reports,
                   perms[c], draws[c], member, rows, gone, report);
      members, memberData := members + [member], memberData + [rows];
      removed, reports := removed + [gone], reports + [report];
      c := c + 1;
    }
    TakeAll(perms);
    TakeAll(draws);
  }

  /** Every built member can classify any row of member 0's dataset. */
  lemma BuiltMembersRead(data: seq<Instance>, nf: nat, y: nat, perms: seq<seq<nat>>, draws: seq<seq<nat>>,
                         members: seq<Perceptron.Model>, memberData: seq<seq<Instance>>,
                         removed: seq<seq<int>>, reports: seq<Perceptron.Status>)
    requires AllBuilt(data, nf, y, perms, draws, members, memberData, removed, reports)
    requires |members| > 0 && |memberData[0]| > 0
    ensures Readable(members, memberData[0][0])
  {
    var row := memberData[0][0];
    assert MemberBuilt(data, nf, y, perms[0], draws[0], members[0], memberData[0], removed[0], reports[0]);
    forall i | 0 <= i < |members|
      ensures members[i].numFeatures <= |members[i].weights| && members[i].numFeatures <= |row.values|
    {
      assert MemberBuilt(data, nf, y, perms[i], draws[i], members[i], memberData[i], removed[i], reports[i]);
    }
  }

  lemma TakeOneMore<T>(s: seq<T>, c: nat)
    requires c < |s|
    ensures s[..c + 1] == s[..c] + [s[c]]
  {
  }

  lemma TakeAll<T>(s: seq<T>)
    ensures s[..|s|] == s
  {
  }

  /** `buildClassifier(instances, attributeProportion)` of the ensemble on a
      dataset with `nf` feature columns and the given numeric class labels.
      The shuffles and feature draws are parameters, and `schemaOks[c]` is the
      capability verdict on member `c`'s reduced dataset; the first member
      that fails it stops the build.  After a build each member is trained on its
      reduced dataset, `attributesRemoved` holds the sorted removed indices, and
      a vote on the first row of member 0's dataset is recorded, adding to the
      running total kept from earlier votes. */
  method BuildEnsemble(e: EnsembleModel, data: seq<Instance>, nf: nat, classes: seq<real>,
                       proportion: real, perms: seq<seq<nat>>, draws: seq<seq<nat>>, schemaOks: seq<bool>)
    returns (e': EnsembleModel, status: BuildStatus, reports: seq<Perceptron.Status>)
    requires Rectangular(data, nf) && nf <= IntMax
    requires RandomnessFits(data, nf, FeatureCount(nf, proportion), perms, draws)
    requires |schemaOks| == EnsembleSize
    ensures status == NegativeFeatureCount <==> FeatureCount(nf, proportion) < 0
    ensures status == TooManyFeatures <==> FeatureCount(nf, proportion) > nf
    ensures status == SchemaViolation <==> 0 <= FeatureCount(nf, proportion) <= nf && false in schemaOks
    ensures status == NoRows <==> 0 <= FeatureCount(nf, proportion) <= nf && false !in schemaOks && |data| == 0
    ensures e'.attributeProportion == proportion
    ensures status == Built ==>
      var y := FeatureCount(nf, proportion);
      && 0 <= y <= nf
      && AllBuilt(data, nf, y, perms, draws, e'.members, e'.memberData, e'.attributesRemoved, reports)
      && |e'.members| == EnsembleSize
      && (forall c :: 0 <= c < EnsembleSize ==> |e'.memberData[c]| == |data| > 0)
      && e'.classes == classes
      && Readable(e'.members, e'.memberData[0][0])
      && var outputs := Outputs(e'.members, e'.memberData[0][0]);
         && e'.totalVotes == e.totalVotes + Votes(classes, outputs) as real
         && e'.classifications == Proportions(Counted(classes, outputs), e'.totalVotes)
  {
    e' := e.(attributeProportion := proportion);
    reports := [];
    var y := FeatureCount(nf, proportion);
    if y < 0 {
      return e', NegativeFeatureCount, reports;
    }
    if y > nf {
      return e', TooManyFeatures, reports;
    }
    if false in schemaOks {
      return e', SchemaViolation, reports;
    }
    var members, memberData, removed;
    members, memberData, removed, reports := BuildMembers(data, nf, y, perms, draws);
    if |data| == 0 {
      return e'.(members := members, memberData := memberData, attributesRemoved := removed), NoRows, reports;
    }
    var row := memberData[0][0];
    BuiltMembersRead(data, nf, y, perms, draws, members, memberData, removed, reports);
    var built := e'.(members := members, memberData := memberData, attributesRemoved := removed, classes := classes);
    var dist;
    e', dist := DistributionForInstance(built, row);
    status := Built;
  }
}
