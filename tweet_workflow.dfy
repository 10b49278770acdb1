/**
 * The tweet generate / evaluate / optimize loop.
 *
 * The three language-model calls are oracles: the generator's text is a
 * parameter, and the evaluator's verdicts and the optimizer's rewrites are
 * functions of the pass number (pass `k` is the `k`-th call of that node).
 * The state merges node updates as the state schema declares: plain fields
 * are overwritten, the two history lists use the list-append reducer.
 */
module TweetWorkflow {
  import opened Wrappers

  datatype Evaluation = Approved | NeedsImprovement

  /** What the structured evaluator returns. */
  datatype Verdict = Verdict(evaluation: Evaluation, feedback: string)

  /**
   * The workflow state. `tweet`, `evaluation` and `feedback` are not in the
   * initial input; the model gives them placeholder values, which the
   * generator and the evaluator overwrite before anything reads them.
   */
  datatype TweetState = TweetState(
    topic: string,
    tweet: string,
    evaluation: Evaluation,
    feedback: string,
    iteration: int,
    maxIteration: int,
    tweetHistory: seq<string>,
    feedbackHistory: seq<string>)

  /** A node's partial update: optional overwrites and the lists to append. */
  datatype TweetUpdate = TweetUpdate(
    tweet: Option<string>,
    evaluation: Option<Evaluation>,
    feedback: Option<string>,
    iteration: Option<int>,
    tweetHistory: seq<string>,
    feedbackHistory: seq<string>)

  datatype Node = GenerateTweet | EvaluateTweet | OptimizeTweet | End

  /** The two labels the router of the loop returns. */
  datatype Route = RouteApproved | RouteNeedsImprovement

  function Overwrite<T>(current: T, update: Option<T>): T {
    match update
    case None => current
    case Some(v) => v
  }

  /** Merges a partial update into the state. */
  function Merge(s: TweetState, u: TweetUpdate): (r: TweetState)
    ensures r.topic == s.topic && r.maxIteration == s.maxIteration
    ensures r.tweetHistory == s.tweetHistory + u.tweetHistory
    ensures r.feedbackHistory == s.feedbackHistory + u.feedbackHistory
  {
    TweetState(
      s.topic,
      Overwrite(s.tweet, u.tweet),
      Overwrite(s.evaluation, u.evaluation),
      Overwrite(s.feedback, u.feedback),
      Overwrite(s.iteration, u.iteration),
      s.maxIteration,
      s.tweetHistory + u.tweetHistory,
      s.feedbackHistory + u.feedbackHistory)
  }

  function InitialState(topic: string, iteration: int, maxIteration: int): TweetState {
    TweetState(topic, "", NeedsImprovement, "", iteration, maxIteration, [], [])
  }

  function GenerateUpdate(response: string): TweetUpdate {
    TweetUpdate(Some(response), None, None, None, [response], [])
  }

  function EvaluateUpdate(v: Verdict): TweetUpdate {
    TweetUpdate(None, Some(v.evaluation), Some(v.feedback), None, [], [v.feedback])
  }

  function OptimizeUpdate(s: TweetState, response: string): TweetUpdate {
    TweetUpdate(Some(response), None, None, Some(s.iteration + 1), [response], [])
  }

  /** The router of the loop. */
  function EvaluationFeedback(s: TweetState): Route {
    if s.evaluation == Approved || s.iteration >= s.maxIteration then RouteApproved
    else RouteNeedsImprovement
  }

  /** Where each router label leads in the wiring of the graph. */
  function RouteTarget(r: Route): Node {
    match r
    case RouteApproved => End
    case RouteNeedsImprovement => OptimizeTweet
  }

  function Last(s: seq<string>): string
    requires |s| > 0
  {
    s[|s| - 1]
  }

  /** The router stops exactly on approval or once the counter reaches the maximum. */
  lemma RouterStops(s: TweetState)
    ensures RouteTarget(EvaluationFeedback(s)) == End
        <==> s.evaluation == Approved || s.iteration >= s.maxIteration
    ensures RouteTarget(EvaluationFeedback(s)) == OptimizeTweet
        <==> s.evaluation == NeedsImprovement && s.iteration < s.maxIteration
  {
  }

  /** An optimize pass bumps the counter by one, replaces the tweet and logs it; nothing else moves. */
  lemma OptimizeStep(s: TweetState, response: string)
    ensures Merge(s, OptimizeUpdate(s, response))
         == s.(tweet := response, iteration := s.iteration + 1, tweetHistory := s.tweetHistory + [response])
  {
  }

  /** An evaluation records the verdict and logs its feedback; nothing else moves. */
  lemma EvaluateStep(s: TweetState, v: Verdict)
    ensures Merge(s, EvaluateUpdate(v))
         == s.(evaluation := v.evaluation, feedback := v.feedback, feedbackHistory := s.feedbackHistory + [v.feedback])
  {
  }

  /** One round of the loop: an optimize pass followed by an evaluation. */
  function Round(s: TweetState, response: string, v: Verdict): TweetState {
    Merge(Merge(s, OptimizeUpdate(s, response)), EvaluateUpdate(v))
  }

  lemma OptimizeThenEvaluate(s: TweetState, response: string, v: Verdict)
    ensures Round(s, response, v)
         == s.(tweet := response, evaluation := v.evaluation, feedback := v.feedback,
               iteration := s.iteration + 1,
               tweetHistory := s.tweetHistory + [response],
               feedbackHistory := s.feedbackHistory + [v.feedback])
  {
    OptimizeStep(s, response);
  }

  /** No node of the loop lowers the counter. */
  lemma IterationNeverDecreases(s: TweetState, response: string, v: Verdict)
    ensures Merge(s, GenerateUpdate(response)).iteration == s.iteration
    ensures Merge(s, EvaluateUpdate(v)).iteration == s.iteration
    ensures Merge(s, OptimizeUpdate(s, response)).iteration == s.iteration + 1
  {
  }

  /** The current tweet and feedback are the last entries of their histories. */
  ghost predicate HistoriesAgree(s: TweetState) {
    && |s.tweetHistory| > 0 && s.tweet == Last(s.tweetHistory)
    && |s.feedbackHistory| > 0 && s.feedback == Last(s.feedbackHistory)
  }

  lemma HistoriesAgreePreserved(s: TweetState, response: string, v: Verdict)
    requires |s.tweetHistory| > 0 && s.tweet == Last(s.tweetHistory)
    ensures HistoriesAgree(Merge(s, EvaluateUpdate(v)))
    ensures HistoriesAgree(s) ==> HistoriesAgree(Merge(s, OptimizeUpdate(s, response)))
  {
  }

  /**
   * After `passes` rounds the histories hold the first draft, then each
   * rewrite, and one feedback per evaluation, in call order; the stored
   * evaluation is the latest verdict.
   */
  ghost predicate Logged(s: TweetState, passes: nat, generated: string,
                         evaluator: nat -> Verdict, optimizer: nat -> string) {
    && |s.tweetHistory| == passes + 1 && |s.feedbackHistory| == passes + 1
    && s.tweetHistory[0] == generated
    && (forall j :: 0 < j <= passes ==> s.tweetHistory[j] == optimizer(j - 1))
    && (forall j :: 0 <= j <= passes ==> s.feedbackHistory[j] == evaluator(j).feedback)
    && s.evaluation == evaluator(passes).evaluation
    && HistoriesAgree(s)
  }

  lemma LoggedStep(s: TweetState, passes: nat, generated: string,
                   evaluator: nat -> Verdict, optimizer: nat -> string)
    requires Logged(s, passes, generated, evaluator, optimizer)
    ensures Logged(Round(s, optimizer(passes), evaluator(passes + 1)), passes + 1, generated, evaluator, optimizer)
  {
    OptimizeThenEvaluate(s, optimizer(passes), evaluator(passes + 1));
  }

  /** Optimize passes the loop can still make from a counter value. */
  function Bound(iteration: int, maxIteration: int): nat {
    if maxIteration > iteration then maxIteration - iteration else 0
  }

  /**
   * Reference count of optimize passes when the `k`-th evaluation is the
   * next one and the counter stands at `iteration`.
   */
  function Passes(evaluator: nat -> Verdict, k: nat, iteration: int, maxIteration: int): nat
    decreases Bound(iteration, maxIteration)
  {
    if evaluator(k).evaluation == Approved || iteration >= maxIteration then 0
    else 1 + Passes(evaluator, k + 1, iteration + 1, maxIteration)
  }

  /** Whatever the evaluator says, the loop makes at most `max(0, max_iteration - iteration)` passes. */
  lemma {:induction false} PassesBound(evaluator: nat -> Verdict, k: nat, iteration: int, maxIteration: int)
    ensures Passes(evaluator, k, iteration, maxIteration) <= Bound(iteration, maxIteration)
    decreases Bound(iteration, maxIteration)
  {
    if evaluator(k).evaluation != Approved && iteration < maxIteration {
      PassesBound(evaluator, k + 1, iteration + 1, maxIteration);
    }
  }

  /** An evaluator that never approves drives the counter all the way to the maximum. */
  lemma {:induction false} PassesNeverApproved(evaluator: nat -> Verdict, k: nat, iteration: int, maxIteration: int)
    requires forall j :: evaluator(j).evaluation == NeedsImprovement
    ensures Passes(evaluator, k, iteration, maxIteration) == Bound(iteration, maxIteration)
    decreases Bound(iteration, maxIteration)
  {
    if iteration < maxIteration {
      PassesNeverApproved(evaluator, k + 1, iteration + 1, maxIteration);
    }
  }

  /**
   * The pass count is the first pass at which the router stops: every earlier
   * verdict asked for improvement, with the counter still below the maximum.
   */
  lemma {:induction false} PassesFirstStop(evaluator: nat -> Verdict, k: nat, iteration: int, maxIteration: int)
    ensures evaluator(k + Passes(evaluator, k, iteration, maxIteration)).evaluation == Approved
         || iteration + Passes(evaluator, k, iteration, maxIteration) >= maxIteration
    ensures Passes(evaluator, k, iteration, maxIteration) > 0
        ==> iteration + Passes(evaluator, k, iteration, maxIteration) <= maxIteration
    ensures forall j: nat :: k <= j < k + Passes(evaluator, k, iteration, maxIteration) ==>
         evaluator(j).evaluation == NeedsImprovement
    decreases Bound(iteration, maxIteration)
  {
    if evaluator(k).evaluation != Approved && iteration < maxIteration {
      PassesFirstStop(evaluator, k + 1, iteration + 1, maxIteration);
      assert evaluator(k).evaluation == NeedsImprovement;
    }
  }

  /** The run of the script: `iteration = 1`, `max_iteration = 5` allows at most four rewrites. */
  lemma ScriptRunBound(evaluator: nat -> Verdict)
    ensures Passes(evaluator, 0, 1, 5) <= 4
  {
    PassesBound(evaluator, 0, 1, 5);
  }

  /** Nodes executed by a run that makes `passes` optimize passes, in order. */
  function Trace(passes: nat): (t: seq<Node>)
    ensures |t| == 2 * passes + 2
  {
    if passes == 0 then [GenerateTweet, EvaluateTweet]
    else Trace(passes - 1) + [OptimizeTweet, EvaluateTweet]
  }

  /** The script's run executes at most ten nodes, well inside the engine's default step limit of 25. */
  lemma ScriptRunSteps(evaluator: nat -> Verdict)
    ensures |Trace(Passes(evaluator, 0, 1, 5))| <= 10
  {
    ScriptRunBound(evaluator);
  }

  /**
   * The compiled graph: generate, evaluate, then optimize and evaluate again
   * until the router sends the run to END.
   */
  method Invoke(topic: string, iteration: int, maxIteration: int,
                generated: string, evaluator: nat -> Verdict, optimizer: nat -> string)
    returns (final: TweetState, passes: nat, trace: seq<Node>)
    ensures passes == Passes(evaluator, 0, iteration, maxIteration)
    ensures passes <= Bound(iteration, maxIteration)
    ensures RouteTarget(EvaluationFeedback(final)) == End
    ensures trace == Trace(passes)
    ensures final.topic == topic && final.maxIteration == maxIteration
    ensures final.iteration == iteration + passes
    ensures final.evaluation == evaluator(passes).evaluation
    ensures |final.tweetHistory| == passes + 1 && |final.feedbackHistory| == passes + 1
    ensures final.tweetHistory[0] == generated
    ensures forall j :: 0 < j <= passes ==> final.tweetHistory[j] == optimizer(j - 1)
    ensures forall j :: 0 <= j <= passes ==> final.feedbackHistory[j] == evaluator(j).feedback
    ensures HistoriesAgree(final)
  {
    var s := InitialState(topic, iteration, maxIteration);
    s := Merge(s, GenerateUpdate(generated));
    s := Merge(s, EvaluateUpdate(evaluator(0)));
    trace := [GenerateTweet, EvaluateTweet];
    passes := 0;
    while EvaluationFeedback(s) == RouteNeedsImprovement
      invariant s.topic == topic && s.maxIteration == maxIteration
      invariant s.iteration == iteration + passes
      invariant Passes(evaluator, 0, iteration, maxIteration)
             == passes + Passes(evaluator, passes, s.iteration, maxIteration)
      invariant trace == Trace(passes)
      invariant Logged(s, passes, generated, evaluator, optimizer)
      decreases Bound(s.iteration, maxIteration)
    {
      LoggedStep(s, passes, generated, evaluator, optimizer);
      s := Round(s, optimizer(passes), evaluator(passes + 1));
      passes := passes + 1;
      trace := trace + [OptimizeTweet, EvaluateTweet];
    }
    final := s;
    PassesBound(evaluator, 0, iteration, maxIteration);
  }
}
