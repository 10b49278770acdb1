/**
 * The parallel essay evaluation: three evaluator branches start from START,
 * each writes its own feedback key and appends one score to
 * `individual_scores` (list-append reducer); the join node averages the
 * scores.
 *
 * The graded feedback and score each branch gets from the language model are
 * oracles, bounded by the structured-output schema (score in 0..10). The
 * engine merges the three parallel updates in an order the model leaves
 * open: every statement below holds for every order.
 */
module EssayWorkflow {
  import opened Wrappers

  type Score = x: int | 0 <= x <= 10

  datatype Branch = Language | Analysis | Clarity

  /** What an evaluator branch gets back from the structured model. */
  datatype Grade = Grade(feedback: string, score: Score)

  datatype EssayState = EssayState(
    essay: string,
    languageFeedback: Option<string>,
    analysisFeedback: Option<string>,
    clarityFeedback: Option<string>,
    overallFeedback: Option<string>,
    individualScores: seq<int>,
    avgScore: Option<real>)

  /** The overwrite-policy keys a node may write. */
  datatype Field = LanguageFeedback | AnalysisFeedback | ClarityFeedback | OverallFeedback | AvgScore

  datatype EssayUpdate = EssayUpdate(
    languageFeedback: Option<string>,
    analysisFeedback: Option<string>,
    clarityFeedback: Option<string>,
    overallFeedback: Option<string>,
    avgScore: Option<real>,
    individualScores: seq<int>)

  datatype EssayError = ZeroDivisionError

  function Overwrite<T>(current: Option<T>, update: Option<T>): Option<T> {
    if update.Some? then update else current
  }

  /** The overwrite keys an update writes. */
  function Overwrites(u: EssayUpdate): set<Field> {
    (if u.languageFeedback.Some? then {LanguageFeedback} else {})
    + (if u.analysisFeedback.Some? then {AnalysisFeedback} else {})
    + (if u.clarityFeedback.Some? then {ClarityFeedback} else {})
    + (if u.overallFeedback.Some? then {OverallFeedback} else {})
    + (if u.avgScore.Some? then {AvgScore} else {})
  }

  /** Overwrite keys are replaced; the score list is extended by the update's list. */
  function Merge(s: EssayState, u: EssayUpdate): EssayState {
    EssayState(
      s.essay,
      Overwrite(s.languageFeedback, u.languageFeedback),
      Overwrite(s.analysisFeedback, u.analysisFeedback),
      Overwrite(s.clarityFeedback, u.clarityFeedback),
      Overwrite(s.overallFeedback, u.overallFeedback),
      s.individualScores + u.individualScores,
      Overwrite(s.avgScore, u.avgScore))
  }

  function FeedbackField(b: Branch): Field {
    match b
    case Language => LanguageFeedback
    case Analysis => AnalysisFeedback
    case Clarity => ClarityFeedback
  }

  /** The update of evaluate_language, evaluate_analysis or evaluate_clarity. */
  function BranchUpdate(b: Branch, g: Grade): (u: EssayUpdate)
    ensures Overwrites(u) == {FeedbackField(b)}
    ensures u.individualScores == [g.score]
  {
    match b
    case Language => EssayUpdate(Some(g.feedback), None, None, None, None, [g.score])
    case Analysis => EssayUpdate(None, Some(g.feedback), None, None, None, [g.score])
    case Clarity => EssayUpdate(None, None, Some(g.feedback), None, None, [g.score])
  }

  /** Distinct branches write disjoint overwrite keys, so their merge cannot conflict. */
  lemma BranchesDisjoint(b1: Branch, g1: Grade, b2: Branch, g2: Grade)
    requires b1 != b2
    ensures Overwrites(BranchUpdate(b1, g1)) !! Overwrites(BranchUpdate(b2, g2))
  {
  }

  /** Two updates with disjoint overwrite keys commute up to the order of the appended scores. */
  lemma MergeCommutes(s: EssayState, u1: EssayUpdate, u2: EssayUpdate)
    requires Overwrites(u1) !! Overwrites(u2)
    ensures var r1, r2 := Merge(Merge(s, u1), u2), Merge(Merge(s, u2), u1);
      && r1.(individualScores := []) == r2.(individualScores := [])
      && r1.individualScores == s.individualScores + u1.individualScores + u2.individualScores
      && r2.individualScores == s.individualScores + u2.individualScores + u1.individualScores
  {
  }

  /** The three branches, each exactly once, in the order the engine merges them. */
  predicate IsOrder(order: seq<Branch>) {
    |order| == 3 && order[0] != order[1] && order[1] != order[2] && order[0] != order[2]
  }

  /** Merges the branch updates in the given order. */
  function FanIn(s: EssayState, order: seq<Branch>, grades: Branch -> Grade): EssayState
    decreases |order|
  {
    if order == [] then s
    else FanIn(Merge(s, BranchUpdate(order[0], grades(order[0]))), order[1..], grades)
  }

  function Scores(order: seq<Branch>, grades: Branch -> Grade): (r: seq<int>)
    ensures |r| == |order|
    ensures forall i :: 0 <= i < |order| ==> r[i] == grades(order[i]).score
  {
    if order == [] then [] else [grades(order[0]).score] + Scores(order[1..], grades)
  }

  lemma {:induction false} FanInAppends(s: EssayState, order: seq<Branch>, grades: Branch -> Grade)
    ensures FanIn(s, order, grades).individualScores == s.individualScores + Scores(order, grades)
    decreases |order|
  {
    if order != [] {
      var s' := Merge(s, BranchUpdate(order[0], grades(order[0])));
      FanInAppends(s', order[1..], grades);
      var x := grades(order[0]).score;
      assert s'.individualScores == s.individualScores + [x];
      assert s.individualScores + ([x] + Scores(order[1..], grades))
          == (s.individualScores + [x]) + Scores(order[1..], grades);
    }
  }

  /** The branches leave the essay, the overall feedback and the average alone. */
  lemma {:induction false} FanInKeeps(s: EssayState, order: seq<Branch>, grades: Branch -> Grade)
    ensures FanIn(s, order, grades).essay == s.essay
    ensures FanIn(s, order, grades).overallFeedback == s.overallFeedback
    ensures FanIn(s, order, grades).avgScore == s.avgScore
    decreases |order|
  {
    if order != [] {
      FanInKeeps(Merge(s, BranchUpdate(order[0], grades(order[0]))), order[1..], grades);
    }
  }

  /** The feedback key a branch writes, read from the state. */
  function FeedbackOf(s: EssayState, b: Branch): Option<string> {
    match b
    case Language => s.languageFeedback
    case Analysis => s.analysisFeedback
    case Clarity => s.clarityFeedback
  }

  lemma {:induction false} FanInFeedback(s: EssayState, order: seq<Branch>, grades: Branch -> Grade, b: Branch)
    ensures b in order ==> FeedbackOf(FanIn(s, order, grades), b) == Some(grades(b).feedback)
    ensures b !in order ==> FeedbackOf(FanIn(s, order, grades), b) == FeedbackOf(s, b)
    decreases |order|
  {
    if order != [] {
      var s' := Merge(s, BranchUpdate(order[0], grades(order[0])));
      FanInFeedback(s', order[1..], grades, b);
      assert b in order <==> b == order[0] || b in order[1..];
    }
  }

  /** Three distinct branches in three slots: one of the six permutations. */
  lemma OrderCases(order: seq<Branch>)
    requires IsOrder(order)
    ensures Language in order && Analysis in order && Clarity in order
  {
    if order[0] == Language {
      if order[1] == Analysis { assert order[2] == Clarity; } else { assert order[2] == Analysis; }
    } else if order[0] == Analysis {
      if order[1] == Language { assert order[2] == Clarity; } else { assert order[2] == Language; }
    } else {
      if order[1] == Language { assert order[2] == Analysis; } else { assert order[2] == Language; }
    }
  }

  lemma SeqTriple(x: int, y: int, z: int)
    ensures multiset([x, y, z]) == multiset{x, y, z}
  {
    assert [x, y, z] == [x] + [y] + [z];
  }

  lemma SwapFirst(x: int, y: int, z: int)
    ensures multiset{y, x, z} == multiset{x, y, z}
  {
  }

  lemma SwapLast(x: int, y: int, z: int)
    ensures multiset{x, z, y} == multiset{x, y, z}
  {
  }

  /** Every arrangement of three scores is the same multiset. */
  lemma TriplePermutations(x: int, y: int, z: int)
    ensures multiset{x, z, y} == multiset{x, y, z}
    ensures multiset{y, x, z} == multiset{x, y, z}
    ensures multiset{y, z, x} == multiset{x, y, z}
    ensures multiset{z, x, y} == multiset{x, y, z}
    ensures multiset{z, y, x} == multiset{x, y, z}
  {
    SwapLast(x, y, z);
    SwapFirst(x, y, z);
    SwapLast(y, x, z);
    SwapFirst(x, z, y);
    SwapFirst(y, z, x);
  }

  lemma ScoresOfOrder(order: seq<Branch>, grades: Branch -> Grade)
    requires IsOrder(order)
    ensures multiset(Scores(order, grades))
         == multiset{grades(Language).score, grades(Analysis).score, grades(Clarity).score}
  {
    var x, y, z := grades(order[0]).score, grades(order[1]).score, grades(order[2]).score;
    assert Scores(order, grades) == [x, y, z];
    SeqTriple(x, y, z);
    TriplePermutations(grades(Language).score, grades(Analysis).score, grades(Clarity).score);
    OrderCases(order);
  }

  /**
   * Whatever the merge order, the fan-in sets the three feedback keys and
   * appends exactly the three branch scores to the score list.
   */
  lemma FanInMerged(s: EssayState, order: seq<Branch>, grades: Branch -> Grade)
    requires IsOrder(order)
    ensures var r := FanIn(s, order, grades);
      && r.languageFeedback == Some(grades(Language).feedback)
      && r.analysisFeedback == Some(grades(Analysis).feedback)
      && r.clarityFeedback == Some(grades(Clarity).feedback)
      && r.essay == s.essay && r.overallFeedback == s.overallFeedback && r.avgScore == s.avgScore
      && |r.individualScores| == |s.individualScores| + 3
      && r.individualScores[..|s.individualScores|] == s.individualScores
      && multiset(r.individualScores[|s.individualScores|..])
         == multiset{grades(Language).score, grades(Analysis).score, grades(Clarity).score}
  {
    FanInAppends(s, order, grades);
    FanInKeeps(s, order, grades);
    FanInFeedback(s, order, grades, Language);
    FanInFeedback(s, order, grades, Analysis);
    FanInFeedback(s, order, grades, Clarity);
    ScoresOfOrder(order, grades);
    var r := FanIn(s, order, grades);
    assert r.individualScores[|s.individualScores|..] == Scores(order, grades);
  }

  /** Python's `sum` over a list of integers. */
  function Sum(xs: seq<int>): int {
    if xs == [] then 0 else xs[0] + Sum(xs[1..])
  }

  lemma {:induction false} SumAppend(xs: seq<int>, ys: seq<int>)
    ensures Sum(xs + ys) == Sum(xs) + Sum(ys)
    decreases |xs|
  {
    if xs == [] {
      assert xs + ys == ys;
    } else {
      assert (xs + ys)[1..] == xs[1..] + ys;
      SumAppend(xs[1..], ys);
    }
  }

  /** Taking one element out of a list takes it out of the sum. */
  lemma RemoveAtSum(ys: seq<int>, i: nat)
    requires i < |ys|
    ensures Sum(ys) == ys[i] + Sum(ys[..i] + ys[i + 1..])
  {
    var x := ys[i];
    assert ys == ys[..i] + [x] + ys[i + 1..];
    SumAppend(ys[..i] + [x], ys[i + 1..]);
    SumAppend(ys[..i], [x]);
    SumAppend(ys[..i], ys[i + 1..]);
    assert Sum([x]) == x;
  }

  /** Taking one element out of a list takes it out of the multiset. */
  lemma RemoveAtMultiset(ys: seq<int>, i: nat)
    requires i < |ys|
    ensures multiset(ys[..i] + ys[i + 1..]) == multiset(ys) - multiset{ys[i]}
  {
    var x := ys[i];
    var rest := ys[..i] + ys[i + 1..];
    assert ys == ys[..i] + [x] + ys[i + 1..];
    calc {
      multiset(ys);
      multiset(ys[..i] + [x] + ys[i + 1..]);
      multiset(ys[..i]) + multiset{x} + multiset(ys[i + 1..]);
      multiset(rest) + multiset{x};
    }
  }

  /** The sum depends only on which scores were appended, not on their order. */
  lemma {:induction false} SumPermutation(xs: seq<int>, ys: seq<int>)
    requires multiset(xs) == multiset(ys)
    ensures Sum(xs) == Sum(ys)
    decreases |xs|
  {
    if xs == [] {
      assert |ys| == |multiset(ys)| == 0;
    } else {
      var x := xs[0];
      assert x in multiset(ys);
      var i :| 0 <= i < |ys| && ys[i] == x;
      RemoveAtSum(ys, i);
      RemoveAtMultiset(ys, i);
      assert xs == [x] + xs[1..];
      assert multiset(xs[1..]) == multiset(xs) - multiset{x};
      SumPermutation(xs[1..], ys[..i] + ys[i + 1..]);
    }
  }

  lemma Sum3(a: int, b: int, c: int)
    ensures Sum([a, b, c]) == a + b + c
  {
    assert [a, b, c][1..] == [b, c];
    assert [b, c][1..] == [c];
    assert [c][1..] == [];
    assert Sum([c]) == c + Sum([]);
    assert Sum([b, c]) == b + Sum([c]);
  }

  predicate InRange(xs: seq<int>) {
    forall i :: 0 <= i < |xs| ==> 0 <= xs[i] <= 10
  }

  lemma {:induction false} SumBounds(xs: seq<int>)
    requires InRange(xs)
    ensures 0 <= Sum(xs) <= 10 * |xs|
    decreases |xs|
  {
    if xs != [] {
      SumBounds(xs[1..]);
    }
  }

  /** `sum(scores) / len(scores)`, computed exactly (no float rounding). */
  function Average(xs: seq<int>): real
    requires |xs| > 0
  {
    Sum(xs) as real / |xs| as real
  }

  lemma RealDivBounds(t: real, n: real, hi: real)
    requires n > 0.0 && 0.0 <= t <= hi * n
    ensures 0.0 <= t / n <= hi
  {
    var q := t / n;
    assert q * n == t;
    assert (hi - q) * n == hi * n - t;
  }

  /** Scores in 0..10 average to a value in [0, 10]. */
  lemma AverageBounds(xs: seq<int>)
    requires |xs| > 0 && InRange(xs)
    ensures 0.0 <= Average(xs) <= 10.0
  {
    SumBounds(xs);
    var n := |xs| as real;
    var total := Sum(xs) as real;
    assert 0.0 <= total <= 10.0 * n;
    RealDivBounds(total, n, 10.0);
  }

  /** The join node: raises on an empty score list, writes only the two result keys. */
  function FinalEvaluation(s: EssayState, overall: string): Result<EssayUpdate, EssayError> {
    if |s.individualScores| == 0 then Err(ZeroDivisionError)
    else Ok(EssayUpdate(None, None, None, Some(overall), Some(Average(s.individualScores)), []))
  }

  lemma FinalEvaluationWrites(s: EssayState, overall: string)
    ensures FinalEvaluation(s, overall).Err? <==> |s.individualScores| == 0
    ensures FinalEvaluation(s, overall).Ok? ==>
      && Overwrites(FinalEvaluation(s, overall).value) == {OverallFeedback, AvgScore}
      && FinalEvaluation(s, overall).value.individualScores == []
  {
  }

  function InitialState(essay: string): EssayState {
    EssayState(essay, None, None, None, None, [], None)
  }

  /** The compiled graph: the three branches in `order`, then final_evaluation, then END. */
  function Invoke(essay: string, order: seq<Branch>, grades: Branch -> Grade, overall: string): Result<EssayState, EssayError> {
    var joined := FanIn(InitialState(essay), order, grades);
    match FinalEvaluation(joined, overall)
    case Err(e) => Err(e)
    case Ok(u) => Ok(Merge(joined, u))
  }

  /** The score list after the fan-in: the three branch scores, each in 0..10, summing to their total. */
  lemma JoinedScores(essay: string, order: seq<Branch>, grades: Branch -> Grade)
    requires IsOrder(order)
    ensures var xs := FanIn(InitialState(essay), order, grades).individualScores;
      && |xs| == 3
      && multiset(xs) == multiset{grades(Language).score, grades(Analysis).score, grades(Clarity).score}
      && InRange(xs)
      && Sum(xs) == grades(Language).score + grades(Analysis).score + grades(Clarity).score
  {
    var s0 := InitialState(essay);
    FanInAppends(s0, order, grades);
    ScoresOfOrder(order, grades);
    var xs := FanIn(s0, order, grades).individualScores;
    assert xs == Scores(order, grades);
    var l, a, c := grades(Language).score, grades(Analysis).score, grades(Clarity).score;
    SeqTriple(l, a, c);
    SumPermutation([l, a, c], xs);
    Sum3(l, a, c);
    forall i | 0 <= i < |xs| ensures 0 <= xs[i] <= 10 {
      assert xs[i] == grades(order[i]).score;
    }
  }

  /**
   * A run always succeeds: the score list holds exactly the three branch
   * scores, and the average is their mean, in [0, 10], for every merge order.
   */
  lemma InvokeOutcome(essay: string, order: seq<Branch>, grades: Branch -> Grade, overall: string)
    requires IsOrder(order)
    ensures Invoke(essay, order, grades, overall).Ok?
    ensures var r := Invoke(essay, order, grades, overall).value;
      && r.essay == essay
      && |r.individualScores| == 3
      && multiset(r.individualScores)
         == multiset{grades(Language).score, grades(Analysis).score, grades(Clarity).score}
      && r.languageFeedback == Some(grades(Language).feedback)
      && r.analysisFeedback == Some(grades(Analysis).feedback)
      && r.clarityFeedback == Some(grades(Clarity).feedback)
      && r.overallFeedback == Some(overall)
      && r.avgScore == Some((grades(Language).score + grades(Analysis).score + grades(Clarity).score) as real / 3.0)
      && 0.0 <= r.avgScore.value <= 10.0
  {
    var s0 := InitialState(essay);
    FanInMerged(s0, order, grades);
    JoinedScores(essay, order, grades);
    var joined := FanIn(s0, order, grades);
    AverageBounds(joined.individualScores);
  }

  /** Two merge orders give the same final state but for the order of the score list. */
  lemma InvokeOrderIndependent(essay: string, o1: seq<Branch>, o2: seq<Branch>, grades: Branch -> Grade, overall: string)
    requires IsOrder(o1) && IsOrder(o2)
    ensures Invoke(essay, o1, grades, overall).Ok? && Invoke(essay, o2, grades, overall).Ok?
    ensures var r1, r2 := Invoke(essay, o1, grades, overall).value, Invoke(essay, o2, grades, overall).value;
      && r1.(individualScores := []) == r2.(individualScores := [])
      && multiset(r1.individualScores) == multiset(r2.individualScores)
      && Sum(r1.individualScores) == Sum(r2.individualScores)
  {
    InvokeOutcome(essay, o1, grades, overall);
    InvokeOutcome(essay, o2, grades, overall);
    var r1, r2 := Invoke(essay, o1, grades, overall).value, Invoke(essay, o2, grades, overall).value;
    SumPermutation(r1.individualScores, r2.individualScores);
  }
}
