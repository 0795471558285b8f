/** The vote counting of LinearPerceptronEnsemble: one `Classification` per
    class label, the members' outputs tallied against them, the winner, and
    the vote proportions of `distributionForInstance`. */
module Voting {

  /** One entry of `classifications`: a class label parsed as a number, the
      votes it received, and `totalVotes / count` once computed. */
  datatype Classification = Classification(classification: real, count: nat, voteProportion: real)

  /** Fresh entries for the given labels, as `classifyInstance` allocates them. */
  function Fresh(classes: seq<real>): (r: seq<Classification>)
    ensures |r| == |classes|
    ensures forall j :: 0 <= j < |r| ==> r[j] == Classification(classes[j], 0, 0.0)
  {
    seq(|classes|, j requires 0 <= j < |classes| => Classification(classes[j], 0, 0.0))
  }

  /** The entries after the members voted: each label with the number of
      member outputs equal to it. */
  function Counted(classes: seq<real>, outputs: seq<real>): (r: seq<Classification>)
    ensures |r| == |classes|
    ensures forall j :: 0 <= j < |r| ==> r[j].classification == classes[j] && r[j].voteProportion == 0.0
    // a label has a vote exactly when some member output it, and at most one per member
    ensures forall j :: 0 <= j < |r| ==> (r[j].count > 0 <==> classes[j] in outputs)
    ensures forall j :: 0 <= j < |r| ==> r[j].count <= |outputs|
  {
    seq(|classes|, j requires 0 <= j < |classes| =>
      Classification(classes[j], multiset(outputs)[classes[j]], 0.0))
  }

  /** The votes cast in one `classifyInstance`: every member output adds one
      for every label equal to it. */
  function Votes(classes: seq<real>, outputs: seq<real>): (n: nat)
    // each label collects at most one vote per member output
    ensures n <= |classes| * |outputs|
  {
    if |classes| == 0 then 0
    else Votes(classes[..|classes| - 1], outputs) + multiset(outputs)[classes[|classes| - 1]]
  }

  /** No member output, no votes. */
  lemma {:induction false} NoOutputsNoVotes(classes: seq<real>)
    ensures Votes(classes, []) == 0
    decreases |classes|
  {
    if |classes| > 0 {
      NoOutputsNoVotes(classes[..|classes| - 1]);
    }
  }

  /** One more member output adds as many votes as there are labels equal to it. */
  lemma {:induction false} VotesSnoc(classes: seq<real>, outputs: seq<real>, o: real)
    ensures Votes(classes, outputs + [o]) == Votes(classes, outputs) + multiset(classes)[o]
    decreases |classes|
  {
    if |classes| > 0 {
      var p := classes[..|classes| - 1];
      VotesSnoc(p, outputs, o);
      assert classes == p + [classes[|classes| - 1]];
    }
  }

  /** With distinct labels every member casts at most one vote, so at most
      `|outputs|` votes are cast; a repeated label is counted once per copy. */
  lemma {:induction false} VotesAtMostMembers(classes: seq<real>, outputs: seq<real>)
    requires forall v :: multiset(classes)[v] <= 1
    ensures Votes(classes, outputs) <= |outputs|
    decreases |outputs|
  {
    if |outputs| > 0 {
      var p := outputs[..|outputs| - 1];
      VotesAtMostMembers(classes, p);
      assert outputs == p + [outputs[|outputs| - 1]];
      VotesSnoc(classes, p, outputs[|outputs| - 1]);
      assert multiset(classes)[outputs[|outputs| - 1]] <= 1;
    } else {
      NoOutputsNoVotes(classes);
    }
  }

  /** A label listed twice among the class labels is counted twice: one member
      output equal to it adds at least two votes to the total. */
  lemma RepeatedLabelCountsTwice(classes: seq<real>, outputs: seq<real>, o: real, i: nat, j: nat)
    requires i < j < |classes| && classes[i] == o && classes[j] == o
    ensures Votes(classes, outputs + [o]) >= Votes(classes, outputs) + 2
  {
    VotesSnoc(classes, outputs, o);
    var front := classes[..j];
    assert classes == front + [o] + classes[j + 1..];
    assert front[i] == o;
    assert o in multiset(front);
  }

  /** A label that no member outputs gets no votes; perceptron outputs are
      -1, 0 or 1, so any other label never wins a vote. */
  lemma UnmatchedLabelGetsNoVotes(outputs: seq<real>, v: real)
    requires forall i :: 0 <= i < |outputs| ==> outputs[i] != v
    ensures multiset(outputs)[v] == 0
  {
  }

  /** The inner counting loop of `classifyInstance` for one member output `o`:
      every entry whose label equals `o` gains a vote, and the number of votes
      added is the number of copies of `o` among the labels. */
  method AddVotes(cl: seq<Classification>, classes: seq<real>, o: real)
    returns (cl': seq<Classification>, added: nat)
    requires |cl| == |classes|
    requires forall t :: 0 <= t < |cl| ==> cl[t].classification == classes[t]
    ensures |cl'| == |cl|
    ensures forall t :: 0 <= t < |cl| ==>
      cl'[t] == cl[t].(count := cl[t].count + if classes[t] == o then 1 else 0)
    ensures added == multiset(classes)[o]
  {
    cl' := cl;
    added := 0;
    var j := 0;
    while j < |cl|
      invariant 0 <= j <= |cl| == |cl'|
      invariant forall t :: 0 <= t < |cl| ==>
        cl'[t] == cl[t].(count := cl[t].count + if t < j && classes[t] == o then 1 else 0)
      invariant added == multiset(classes[..j])[o]
    {
      assert classes[..j + 1] == classes[..j] + [classes[j]];
      if cl'[j].classification == o {
        cl' := cl'[j := cl'[j].(count := cl'[j].count + 1)];
        added := added + 1;
      }
      j := j + 1;
    }
    assert classes[..j] == classes;
  }

  /** The counting loops of `classifyInstance`: for every member output and every
      label, a match adds one to that label's count and one to the vote total. */
  method Tally(classes: seq<real>, outputs: seq<real>) returns (cl: seq<Classification>, votes: nat)
    ensures cl == Counted(classes, outputs)
    ensures votes == Votes(classes, outputs)
  {
    cl := Fresh(classes);
    votes := 0;
    NoOutputsNoVotes(classes);
    var i := 0;
    while i < |outputs|
      invariant 0 <= i <= |outputs| && |cl| == |classes|
      invariant forall t :: 0 <= t < |cl| ==>
        cl[t] == Classification(classes[t], multiset(outputs[..i])[classes[t]], 0.0)
      invariant votes == Votes(classes, outputs[..i])
    {
      var o := outputs[i];
      assert outputs[..i + 1] == outputs[..i] + [o];
      var added;
      cl, added := AddVotes(cl, classes, o);
      VotesSnoc(classes, outputs[..i], o);
      votes := votes + added;
      i := i + 1;
    }
    assert outputs[..i] == outputs;
  }

  /** The position of the first largest count. */
  function FirstMax(cl: seq<Classification>): (w: nat)
    requires |cl| > 0
    ensures w < |cl|
    ensures forall j :: 0 <= j < |cl| ==> cl[j].count <= cl[w].count
    ensures forall j :: 0 <= j < w ==> cl[j].count < cl[w].count
  {
    if |cl| == 1 then 0
    else
      var w := FirstMax(cl[..|cl| - 1]);
      if cl[|cl| - 1].count > cl[w].count then |cl| - 1 else w
  }

  /** The winner loop of `classifyInstance`: starting from a blank entry with no
      votes and label 0, an entry replaces the current one only with strictly
      more votes.  The answer is the label of the first entry with the most
      votes, or 0 when no label got a vote. */
  method SelectWinner(cl: seq<Classification>) returns (r: real)
    ensures (forall j :: 0 <= j < |cl| ==> cl[j].count == 0) ==> r == 0.0
    ensures |cl| > 0 && cl[FirstMax(cl)].count > 0 ==> r == cl[FirstMax(cl)].classification
  {
    var best := Classification(0.0, 0, 0.0);
    var j := 0;
    while j < |cl|
      invariant 0 <= j <= |cl|
      invariant best.count == 0 ==> best.classification == 0.0
      invariant best.count == 0 ==> forall t :: 0 <= t < j ==> cl[t].count == 0
      invariant 0 < j ==> cl[FirstMax(cl[..j])].count == best.count
      invariant best.count > 0 ==> 0 < j && best == cl[FirstMax(cl[..j])]
    {
      assert cl[..j + 1][..j] == cl[..j];
      if cl[j].count > best.count {
        best := cl[j];
      }
      j := j + 1;
    }
    assert cl[..j] == cl;
    r := best.classification;
  }

  /** The loop of `distributionForInstance`: every entry with votes gets the
      total vote count divided by its own count; the others keep their proportion. */
  function Proportions(cl: seq<Classification>, totalVotes: real): (r: seq<Classification>)
    ensures |r| == |cl|
    ensures forall j :: 0 <= j < |cl| ==>
      r[j].classification == cl[j].classification && r[j].count == cl[j].count
    ensures forall j :: 0 <= j < |cl| && cl[j].count != 0 ==>
      r[j].voteProportion * cl[j].count as real == totalVotes
    ensures forall j :: 0 <= j < |cl| && cl[j].count == 0 ==> r[j].voteProportion == cl[j].voteProportion
  {
    seq(|cl|, j requires 0 <= j < |cl| =>
      if cl[j].count != 0 then cl[j].(voteProportion := totalVotes / cl[j].count as real) else cl[j])
  }
}
