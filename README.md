# LangGraph tutorial workflows, modelled in Dafny

This project models the small, deterministic pieces of a set of LangGraph
tutorial scripts. It covers six workflow graphs and the thread bookkeeping of
a chat application built on them. The graph engine, the checkpoint store and
every language-model call belong to external libraries. Here they are
replaced by what the scripts rely on: a node returns a partial update; the
state merges it (plain keys are overwritten, keys annotated with
`operator.add` append); the wiring fixes the order in which nodes run; and
every model answer is an arbitrary value of its declared schema, passed in as
a parameter or as an oracle function.

Modules, one per script, plus three shared ones:

- `Wrappers`: `Option` and `Result`. Python exceptions such as
  `ZeroDivisionError`, `KeyError` and `IndexError` become `Err` values.
- `Text`: `str()` of integers and its inverse, slicing `s[:n]`, ASCII
  `lower()`, and a first-occurrence search (it returns the length of the
  text when the character is absent), used to decode the equation text.
- `ChatTypes`: messages and sidebar entries shared by the chat back end and
  front end.
- `TweetWorkflow`: generate, evaluate, then optimize and evaluate again until
  the tweet is approved or the counter reaches its maximum. The loop of the
  compiled graph is a method with a `while` loop.
- `QuadraticWorkflow`: print the equation, compute the integer discriminant,
  then branch three ways on its sign.
- `EssayWorkflow`: three parallel graders, each writing its own feedback key
  and appending one score, then a join that averages the scores.
- `ReviewWorkflow`: a case-insensitive sentiment router; the negative path
  diagnoses the complaint before it answers.
- `ChatBackend`: `retrieve_all_threads`, which de-duplicates the checkpoint
  listing by thread id.
- `ChatFrontend`: the Streamlit session, as a class whose methods update the
  current thread id, the thread list and the message history.
- `BmiWorkflow`: the BMI state object, `calculate_bmi` and the threshold
  classifier `bmi_category`.

## Model

| member | source | states |
|---|---|---|
| Text.IntToString | 6_quadratic_equation_workflow.py:20 | `str(int)`: non-empty; a leading '-' exactly for negative numbers; otherwise only digits, with no leading zero except for 0 itself |
| Text.ParseIntToString | 6_quadratic_equation_workflow.py:20 | reading back the text of `str(n)` gives `n` |
| Text.Prefix | chatbot/backend_db.py:53-55 | `s[:n]` is a prefix of `s` with length `min(len(s), n)` |
| Text.LowerChar | 7_review_reply_workflow.py:107 | an ASCII capital becomes the letter 32 code points above it, its lower-case form; every other character is kept |
| Text.ToLower | 7_review_reply_workflow.py:107 | `lower()` keeps the length and lower-cases each character on its own |
| Text.IndexOfAfter | 6_quadratic_equation_workflow.py:20 | searching `a + b` for a character that `a` lacks finds it at `len(a)` plus its position in `b` |
| TweetWorkflow.InitialState | 8_X_post_generator_iterative_workflow.py:146 | the script's input: topic and both counters given, empty histories, placeholders for the keys the nodes write first; its use in `Invoke` |
| TweetWorkflow.GenerateUpdate | 8_X_post_generator_iterative_workflow.py:38-55 | generate_tweet's update: the draft becomes `tweet` and the first `tweet_history` entry; properties in `Invoke` |
| TweetWorkflow.EvaluateUpdate | 8_X_post_generator_iterative_workflow.py:58-94 | evaluate_tweet's update: verdict, feedback and one `feedback_history` entry; properties in `EvaluateStep` |
| TweetWorkflow.OptimizeUpdate | 8_X_post_generator_iterative_workflow.py:97-118 | optimize_tweet's update: the rewrite, `iteration + 1` and one `tweet_history` entry; properties in `OptimizeStep` |
| TweetWorkflow.EvaluationFeedback | 8_X_post_generator_iterative_workflow.py:121-126 | the router of the loop; both directions of its condition in `RouterStops` |
| TweetWorkflow.RouteTarget | 8_X_post_generator_iterative_workflow.py:137-141 | the path map of the conditional edge: "approved" to END, "needs_improvement" to optimize_tweet; used by `RouterStops` and `Invoke` |
| TweetWorkflow.Round | 8_X_post_generator_iterative_workflow.py:137-142 | one trip around the loop, optimize then evaluate; its result in `OptimizeThenEvaluate` |
| TweetWorkflow.Passes | 8_X_post_generator_iterative_workflow.py:121-142 | the reference number of optimize passes; bounded in `PassesBound`, exact in `PassesNeverApproved`, the first stop in `PassesFirstStop`, matched by `Invoke` |
| TweetWorkflow.Merge | 8_X_post_generator_iterative_workflow.py:17-25 | merging an update never changes `topic` or `max_iteration`; both history lists grow by appending the update's lists |
| TweetWorkflow.RouterStops | 8_X_post_generator_iterative_workflow.py:121-126 | the router sends the run to END exactly when the evaluation is approved or `iteration >= max_iteration`, otherwise to `optimize_tweet` |
| TweetWorkflow.OptimizeStep | 8_X_post_generator_iterative_workflow.py:115-118 | an optimize pass adds exactly 1 to `iteration`, overwrites `tweet` and appends the same text to `tweet_history`; nothing else changes |
| TweetWorkflow.EvaluateStep | 8_X_post_generator_iterative_workflow.py:89-94 | an evaluation overwrites `evaluation` and `feedback` and appends the feedback to `feedback_history`; nothing else changes |
| TweetWorkflow.OptimizeThenEvaluate | 8_X_post_generator_iterative_workflow.py:89-118 | one round of the loop (optimize, then evaluate) adds one to the counter, replaces the tweet, evaluation and feedback, and appends one entry to each history; nothing else changes |
| TweetWorkflow.IterationNeverDecreases | 8_X_post_generator_iterative_workflow.py:90-118 | generate and evaluate keep `iteration`; optimize raises it by one |
| TweetWorkflow.HistoriesAgreePreserved | 8_X_post_generator_iterative_workflow.py:91-118 | after an evaluation, and after each optimize pass, `tweet` and `feedback` are the last entries of their histories |
| TweetWorkflow.LoggedStep | 8_X_post_generator_iterative_workflow.py:89-118 | each round keeps the log invariant: the histories hold the first draft, every rewrite and every feedback in call order, and the stored evaluation is the latest verdict |
| TweetWorkflow.PassesBound | 8_X_post_generator_iterative_workflow.py:116-142 | for any verdicts, the loop makes at most `max(0, max_iteration - iteration)` optimize passes |
| TweetWorkflow.PassesNeverApproved | 8_X_post_generator_iterative_workflow.py:123-142 | if no verdict approves, the loop makes exactly `max(0, max_iteration - iteration)` passes |
| TweetWorkflow.PassesFirstStop | 8_X_post_generator_iterative_workflow.py:123-142 | the pass count is where the router first stops: every earlier verdict asked for improvement, and the counter never overshoots the maximum |
| TweetWorkflow.ScriptRunBound | 8_X_post_generator_iterative_workflow.py:146 | with `iteration = 1` and `max_iteration = 5` there are at most 4 optimize passes |
| TweetWorkflow.ScriptRunSteps | 8_X_post_generator_iterative_workflow.py:146-148 | the script's run executes at most ten nodes |
| TweetWorkflow.Trace | 8_X_post_generator_iterative_workflow.py:135-142 | a run with `p` optimize passes executes `2p + 2` nodes |
| TweetWorkflow.Invoke | 8_X_post_generator_iterative_workflow.py:129-148 | the loop ends at END after the reference number of passes, within the bound; both histories have `passes + 1` entries, the draft tweets and feedback in call order; the counter grew by exactly the number of passes; the current tweet and feedback are the last history entries |
| QuadraticWorkflow.Equation | 6_quadratic_equation_workflow.py:19-22 | the equation f-string with no signs added between the terms; decoded in `EquationDecodes`, injective by `EquationInjective` |
| QuadraticWorkflow.DecodeEquation | 6_quadratic_equation_workflow.py:19-22 | the inverse reading of the equation text, the partner of `Equation` in `EquationDecodes` |
| QuadraticWorkflow.ShowEquationNode | 6_quadratic_equation_workflow.py:19-22 | show_equation writes only `equation`; its effect in `InvokeOutcome` |
| QuadraticWorkflow.Discriminant | 6_quadratic_equation_workflow.py:25-30 | `b**2 - 4*a*c` on integers; its value in `InvokeOutcome` and `ScriptRun`, the linear case in `LinearDiscriminant` |
| QuadraticWorkflow.CalcDiscriminantNode | 6_quadratic_equation_workflow.py:25-30 | calc_discriminant writes only `discriminant`; its effect in `InvokeOutcome` |
| QuadraticWorkflow.RealRootsNode | 6_quadratic_equation_workflow.py:33-43 | real_roots writes only `result`; the roots are parameters |
| QuadraticWorkflow.RepeatedRootsNode | 6_quadratic_equation_workflow.py:46-53 | repeated_roots raises exactly when `a = 0`; its use in `InvokeOutcome` |
| QuadraticWorkflow.NoRealRootsNode | 6_quadratic_equation_workflow.py:56-59 | no_real_roots writes "No real roots"; its use in `InvokeOutcome` |
| QuadraticWorkflow.Invoke | 6_quadratic_equation_workflow.py:75-95 | the compiled graph; its outcome in `InvokeOutcome` and `ScriptRun` |
| QuadraticWorkflow.Apply | 6_quadratic_equation_workflow.py:19-59 | a node's one-key update overwrites that key and leaves the others as they were |
| QuadraticWorkflow.SplitAtX | 6_quadratic_equation_workflow.py:20 | in `a + "x" + rest` where `a` has no 'x', the first 'x' is at `len(a)`, and cutting there gives back `a` and `rest` |
| QuadraticWorkflow.DecodeGlued | 6_quadratic_equation_workflow.py:18-22 | the text `a x2 b x c` with no 'x' in the first two numbers decodes to the three numbers it was built from |
| QuadraticWorkflow.EquationDecodes | 6_quadratic_equation_workflow.py:18-22 | although no signs are added between the terms, the equation text still determines `a`, `b` and `c`: decoding it gives them back |
| QuadraticWorkflow.EquationInjective | 6_quadratic_equation_workflow.py:18-22 | different coefficients always print as different equations |
| QuadraticWorkflow.ScriptEquation | 6_quadratic_equation_workflow.py:18-22 | the input `a=4, b=-5, c=-4` prints as "4x2-5x-4" |
| QuadraticWorkflow.CheckCondition | 6_quadratic_equation_workflow.py:62-72 | exactly one of the three routes for every discriminant: real_roots iff > 0, repeated_roots iff = 0, no_real_roots iff < 0 |
| QuadraticWorkflow.LinearDiscriminant | 6_quadratic_equation_workflow.py:25-30 | when `a = 0` the discriminant is zero exactly when `b` is |
| QuadraticWorkflow.InvokeOutcome | 6_quadratic_equation_workflow.py:18-89 | for a discriminant and coefficients within float range and the int-to-text digit limit: a run raises only when `a` and `b` are both zero (repeated_roots divides by `2 * a = 0`); otherwise it runs show_equation, calc_discriminant and the one root node the sign selects; it sets the equation text and `b*b - 4*a*c`, and the result text of that root node |
| QuadraticWorkflow.ScriptRun | 6_quadratic_equation_workflow.py:94 | the script's input gives discriminant 89 and routes to real_roots |
| EssayWorkflow.Merge | 5_upsc_essay_workflow.py:42-62 | the state's reducers: overwrite keys replaced, `individual_scores` appended; commutation in `MergeCommutes` |
| EssayWorkflow.FanIn | 5_upsc_essay_workflow.py:151-166 | the three branch updates merged in a given order; its result in `FanInAppends`, `FanInKeeps`, `FanInFeedback` and `FanInMerged` |
| EssayWorkflow.Sum | 5_upsc_essay_workflow.py:129 | Python's `sum` over the score list; its laws in `SumAppend`, `SumPermutation`, `SumBounds` |
| EssayWorkflow.Average | 5_upsc_essay_workflow.py:129 | `sum / len` as an exact real; bounded in `AverageBounds` |
| EssayWorkflow.FinalEvaluation | 5_upsc_essay_workflow.py:110-130 | the join node; its error case and keys in `FinalEvaluationWrites` |
| EssayWorkflow.InitialState | 5_upsc_essay_workflow.py:170 | the script's input: the essay only, with no feedback, no average and an empty score list; its run in `JoinedScores` and `InvokeOutcome` |
| EssayWorkflow.Invoke | 5_upsc_essay_workflow.py:151-171 | the compiled graph; its outcome in `InvokeOutcome` and `InvokeOrderIndependent` |
| EssayWorkflow.BranchUpdate | 5_upsc_essay_workflow.py:65-107 | each grader overwrites only its own feedback key and appends its one score |
| EssayWorkflow.BranchesDisjoint | 5_upsc_essay_workflow.py:65-107 | two different graders overwrite disjoint keys |
| EssayWorkflow.MergeCommutes | 5_upsc_essay_workflow.py:42-62 | two updates with disjoint overwrite keys give the same state in either order, except for the order of the appended scores |
| EssayWorkflow.Scores | 5_upsc_essay_workflow.py:61 | the scores the graders append, one per grader, in merge order |
| EssayWorkflow.FanInAppends | 5_upsc_essay_workflow.py:158-164 | merging the graders appends their scores to the list, in merge order |
| EssayWorkflow.FanInKeeps | 5_upsc_essay_workflow.py:65-107 | the graders leave the essay, the overall feedback and the average as they were |
| EssayWorkflow.FanInFeedback | 5_upsc_essay_workflow.py:65-107 | after the fan-in, a grader's feedback key holds that grader's feedback when it ran, and the old value otherwise |
| EssayWorkflow.TriplePermutations | 5_upsc_essay_workflow.py:61 | every arrangement of three scores is the same multiset of scores |
| EssayWorkflow.ScoresOfOrder | 5_upsc_essay_workflow.py:158-164 | in any order of the three graders, the appended scores are the three grader scores |
| EssayWorkflow.FanInMerged | 5_upsc_essay_workflow.py:151-166 | for any merge order, all three feedback keys are set and exactly the three scores are appended to the list |
| EssayWorkflow.SumAppend | 5_upsc_essay_workflow.py:129 | `sum` distributes over list concatenation |
| EssayWorkflow.RemoveAtSum | 5_upsc_essay_workflow.py:129 | the `sum` of a list is one element plus the `sum` of the list without it |
| EssayWorkflow.RemoveAtMultiset | 5_upsc_essay_workflow.py:129 | removing one element from a list removes exactly one copy of it from its multiset |
| EssayWorkflow.SumPermutation | 5_upsc_essay_workflow.py:129 | two lists with the same elements have the same `sum` |
| EssayWorkflow.SumBounds | 5_upsc_essay_workflow.py:129 | scores in 0..10 sum to between 0 and `10 * len` |
| EssayWorkflow.AverageBounds | 5_upsc_essay_workflow.py:129 | the average of scores in 0..10 lies in [0, 10] |
| EssayWorkflow.FinalEvaluationWrites | 5_upsc_essay_workflow.py:110-130 | the join raises exactly on an empty score list, and otherwise writes only `avg_score` and `overall_feedback` |
| EssayWorkflow.JoinedScores | 5_upsc_essay_workflow.py:151-166 | after the fan-in from the initial state, the list holds exactly the three scores, all in 0..10, and sums to their total |
| EssayWorkflow.InvokeOutcome | 5_upsc_essay_workflow.py:151-170 | a run from the initial state never raises; the score list holds exactly the three scores; the feedback keys are set; the average is their mean and lies in [0, 10] |
| EssayWorkflow.InvokeOrderIndependent | 5_upsc_essay_workflow.py:129-164 | two merge orders give the same final state except for the order of the score list, with the same scores and the same sum |
| ReviewWorkflow.ParseIssueType | 7_review_reply_workflow.py:27-29 | only the five listed issue types validate, and each validates as itself |
| ReviewWorkflow.ParseTone | 7_review_reply_workflow.py:30-32 | only the four listed tones validate, and each validates as itself |
| ReviewWorkflow.ParseUrgency | 7_review_reply_workflow.py:33-35 | only the three listed urgencies validate, and each validates as itself |
| ReviewWorkflow.DiagnosisNamesParse | 7_review_reply_workflow.py:26-35 | every value of the enumerations validates back to itself |
| ReviewWorkflow.ModelDump | 7_review_reply_workflow.py:89 | the dumped diagnosis has exactly the keys issue_type, tone and urgency, each holding a valid value of its enumeration |
| ReviewWorkflow.CheckSentiment | 7_review_reply_workflow.py:104-110 | the router returns one of two nodes, positive_response exactly when the lower-cased sentiment is "positive" |
| ReviewWorkflow.CheckSentimentCaseInsensitive | 7_review_reply_workflow.py:107 | the positive branch is taken exactly for eight-character strings spelling "positive" in any case |
| ReviewWorkflow.CheckSentimentCapitalised | 7_review_reply_workflow.py:107-108 | "Positive" routes to positive_response |
| ReviewWorkflow.CheckSentimentUpperCase | 7_review_reply_workflow.py:107-108 | "POSITIVE" routes to positive_response |
| ReviewWorkflow.CheckSentimentNegativeExamples | 7_review_reply_workflow.py:107-110 | "Negative", "" and "Positive " (trailing blank) route to run_diagnosis |
| ReviewWorkflow.NegativeResponseNode | 7_review_reply_workflow.py:92-101 | negative_response raises a KeyError unless `diagnosis` is set and holds all three keys |
| ReviewWorkflow.Invoke | 7_review_reply_workflow.py:113-141 | the compiled graph; its outcome in `InvokeOutcome` |
| ReviewWorkflow.InvokeOutcome | 7_review_reply_workflow.py:114-129 | every run ends without error; the positive path runs only positive_response, the negative path runs run_diagnosis and then negative_response; `response` is written exactly once, and `diagnosis` is set exactly on the negative path |
| ChatTypes.IdSetAppend | chatbot/frontend_db.py:23-24 | appending an entry adds its id to the set of listed ids |
| ChatBackend.TitleOf | chatbot/backend_db.py:53-55 | a title is exactly `content[:30]` of the first message: its prefix of length `min(len(content), 30)` |
| ChatBackend.Retrieve | chatbot/backend_db.py:46-58 | the catalogue read from the left; its properties in `RetrieveIds`, `RetrieveDistinct`, `RetrieveOrder`, `RetrieveTitles`, `RetrieveFails`, computed by `RetrieveAllThreads` |
| ChatBackend.CheckpointIdsAppend | chatbot/backend_db.py:48-49 | the ids of a listing are those of its prefix plus the last checkpoint's id |
| ChatBackend.RetrievePrefix | chatbot/backend_db.py:48-55 | reading more checkpoints only extends the catalogue: entries and titles already collected never change |
| ChatBackend.RetrieveNext | chatbot/backend_db.py:48-55 | one more checkpoint either is skipped (its thread is known), fails on an empty message list, or appends its thread with its title |
| ChatBackend.RetrieveErrExtends | chatbot/backend_db.py:53 | once a prefix of the listing raises, the whole call raises |
| ChatBackend.RetrieveStep | chatbot/backend_db.py:48-55 | the last checkpoint of a successful listing is skipped or appended, as the loop body says |
| ChatBackend.RetrieveIds | chatbot/backend_db.py:48-58 | every thread id of the listing is catalogued, and nothing else is |
| ChatBackend.RetrieveDistinct | chatbot/backend_db.py:50 | no thread id is catalogued twice |
| ChatBackend.RetrieveLength | chatbot/backend_db.py:48-58 | the catalogue is no longer than the listing |
| ChatBackend.RetrieveOrder | chatbot/backend_db.py:47-58 | threads are listed in order of first occurrence: wherever a thread occurs, every thread listed before it has already occurred |
| ChatBackend.RetrieveTitles | chatbot/backend_db.py:50-55 | each title is cut from the first message of the thread's first checkpoint |
| ChatBackend.RetrieveFails | chatbot/backend_db.py:53 | the call raises exactly when the first checkpoint of some thread has an empty message list |
| ChatBackend.RetrieveFailsWitness | chatbot/backend_db.py:53 | a raising call has a first checkpoint with no messages |
| ChatBackend.RetrieveAllThreads | chatbot/backend_db.py:46-58 | the loop that fills the dictionary and then lists its values computes exactly the catalogue, error included |
| ChatBackend.Values | chatbot/backend_db.py:58 | the list comprehension gives the dictionary's values in insertion order |
| ChatFrontend.WithThread | chatbot/frontend_db.py:22-24 | `add_thread` on a list; its properties in `WithThreadIds`, `WithThreadExtends`, `WithThreadIdempotent`, `WithThreadDistinct` |
| ChatFrontend.WithThreadIds | chatbot/frontend_db.py:22-24 | after `add_thread` the id is listed, and no other id has been added |
| ChatFrontend.WithThreadExtends | chatbot/frontend_db.py:22-24 | `add_thread` keeps the existing entries in order and appends at most one, only when the id was absent |
| ChatFrontend.WithThreadIdempotent | chatbot/frontend_db.py:22-24 | adding the same thread twice is adding it once, whatever the second title |
| ChatFrontend.WithThreadDistinct | chatbot/frontend_db.py:22-24 | `add_thread` keeps the ids pairwise distinct |
| ChatFrontend.NewTitle | chatbot/frontend_db.py:79 | the title cut from the first input; its shape in `NewTitleShape` |
| ChatFrontend.Renamed | chatbot/frontend_db.py:74-79 | the retitling of the current "New Chat" entries; its properties in `RenamedTouchesOnly`, `RenamedIds`, `RenamedAtMostOne`, `RenamedIdempotent` |
| ChatFrontend.NewTitleShape | chatbot/frontend_db.py:79 | the new title has at most 33 characters; an input of at most 30 characters is kept whole; a longer one becomes its first 30 characters plus "..." |
| ChatFrontend.RenamedTouchesOnly | chatbot/frontend_db.py:74-79 | renaming keeps every id and every entry except the current thread's entries titled "New Chat", which get the new title |
| ChatFrontend.RenamedIds | chatbot/frontend_db.py:74-79 | renaming keeps the set of ids and their distinctness |
| ChatFrontend.RenamedAtMostOne | chatbot/frontend_db.py:74-79 | with distinct ids, at most one entry is renamed |
| ChatFrontend.RenamedIdempotent | chatbot/frontend_db.py:74-79 | a second rename with the same title changes nothing |
| ChatFrontend.ToChatEntries | chatbot/frontend_db.py:58-63 | a missing or empty conversation shows nothing; otherwise length, order and contents are kept, and the role is "user" exactly for human messages |
| ChatFrontend.ChatSession.constructor | chatbot/frontend_db.py:35-45 | session setup: empty history, the given id as current thread, the retrieved catalogue with the current thread added; a catalogue with distinct ids gives a valid session |
| ChatFrontend.SetUpSession | chatbot/frontend_db.py:35-45 | the session built from `retrieve_all_threads` raises exactly when the back end does, and otherwise is valid, with the catalogue plus the current thread and an empty history |
| ChatFrontend.ChatSession.AddThread | chatbot/frontend_db.py:22-24 | appends the entry in place only when its id is absent |
| ChatFrontend.ChatSession.Rerun | chatbot/frontend_db.py:45 | the `add_thread` on every rerun is a no-op on a valid session |
| ChatFrontend.ChatSession.ResetChat | chatbot/frontend_db.py:15-19 | afterwards the current thread is the new id, it is listed, and the history is empty; distinct ids stay distinct |
| ChatFrontend.ChatSession.SelectThread | chatbot/frontend_db.py:53-63 | a selected entry becomes the current thread and its stored conversation is shown converted |
| ChatFrontend.ChatSession.RenameTitles | chatbot/frontend_db.py:74-79 | the loop retitles in place exactly the entries `Renamed` describes |
| ChatFrontend.ChatSession.SubmitInput | chatbot/frontend_db.py:71-98 | an empty input changes nothing; otherwise the thread is renamed and the input and the reply are appended in that order; the session stays valid |
| BmiWorkflow.Classify | 1_bmi_workflow.py:25-36 | the if/elif chain of bmi_category; its intervals in `ClassifyIntervals`, its order in `ClassifyMonotone` |
| BmiWorkflow.CategoryName | 1_bmi_workflow.py:27-34 | the four labels bmi_category stores; distinct by `CategoryNameInjective` |
| BmiWorkflow.CategoryNameInjective | 1_bmi_workflow.py:27-34 | different categories get different labels |
| BmiWorkflow.ClassifyIntervals | 1_bmi_workflow.py:25-36 | Underweight iff bmi < 18.5, Normal iff 18.5 <= bmi < 25, Overweight iff 25 <= bmi < 30, Obese iff bmi >= 30 |
| BmiWorkflow.ClassifyMonotone | 1_bmi_workflow.py:27-34 | a larger index never gives a lighter category |
| BmiWorkflow.ScriptCategory | 1_bmi_workflow.py:56 | 67 kg at 1.72 m is Normal |
| BmiWorkflow.BmiOf | 1_bmi_workflow.py:20 | `weight / height**2` before rounding; monotone in the weight by `BmiOfMonotone` |
| BmiWorkflow.PositiveSquare | 1_bmi_workflow.py:20 | a non-zero height has a positive square, so the division of the index is defined |
| BmiWorkflow.BmiOfMonotone | 1_bmi_workflow.py:20 | at a fixed height, a heavier weight never gives a smaller index |
| BmiWorkflow.HeavierNeverLighter | 1_bmi_workflow.py:16-36 | at a fixed height, a heavier weight never gives a lighter category |
| BmiWorkflow.BmiState.constructor | 1_bmi_workflow.py:56 | the input sets weight and height; `bmi` and `category` are absent |
| BmiWorkflow.BmiState.CalculateBmi | 1_bmi_workflow.py:16-22 | for heights within float range: raises exactly on a zero height; otherwise writes `bmi` and nothing else |
| BmiWorkflow.BmiState.BmiCategory | 1_bmi_workflow.py:25-36 | raises a KeyError exactly when `bmi` is absent; otherwise writes the label of the category of `bmi` and nothing else |
| BmiWorkflow.Invoke | 1_bmi_workflow.py:40-56 | calculate_bmi runs before bmi_category; for heights within float range the run fails only on a zero height, and otherwise ends with the index and its category |

## Left out

- Language-model calls, prompt text and structured-output parsing. Their
  results are parameters or oracle functions that take any value of the
  declared schema.
- The graph engine: scheduling, parallel execution and compile-time checks.
  The models follow the paths and merge orders the wiring implies; for the
  essay graph, every order of the three branches is covered.
- Checkpoint storage (the sqlite saver and the in-memory saver) and
  `10_persistence.py`. The listing of the store is a sequence of
  checkpoints, each reduced to a thread id and a message list.
- The `add_messages` reducer of the chat graphs and the console loop of
  `9_basic_chatbot.py` (library semantics and I/O).
- `4_batsman_workflow.py` (float ratios over a fan-out the essay model
  already covers), `2_simple_llm_workflow.py` and `3_prompt_chaining.py`
  (model calls passed straight through), and `chatbot/frontend_with_streaming.py`.
- Streamlit widgets, rendering, streaming and `uuid` generation. New thread
  ids, stored conversations and the streamed reply are parameters of the
  session methods. Thread ids are strings, so the model does not tell a
  `uuid.UUID` id from its string form.
- QuadraticWorkflow.InvokeOutcome: Python's limits on numbers are not
  modelled. A discriminant too large for a float makes `discriminant**0.5` in
  real_roots raise `OverflowError`, and a coefficient of more than 4300 digits
  makes the equation f-string raise `ValueError` (Python 3.11 and later). The
  model lets both runs succeed.
- QuadraticWorkflow.RealRootsNode: the square roots and their float text are
  parameters. The source's formula divides by 2 and then multiplies by `a`
  (`/ 2 * a`), which is not the `/ (2 * a)` of the textbook formula; floats
  are not modelled, so this is not stated as a property.
- QuadraticWorkflow.RepeatedRootsNode: the float quotient is a parameter; only
  the division by zero at `a = 0` is modelled.
- BmiWorkflow.BmiState.CalculateBmi: keeps the exact quotient and does not
  model `round(bmi, 2)` or float division. Near a threshold, the rounded value
  the source classifies can fall in the other category. A float height whose
  square underflows to zero is not modelled either.
- BmiWorkflow.BmiState.CalculateBmi: a height whose square is beyond float
  range (about 1.4e154 meters) raises `OverflowError` in `height**2`; the model
  computes the exact quotient instead.
- BmiWorkflow.Invoke: inherits the unmodelled `OverflowError` of
  CalculateBmi, so the model's run fails only on a zero height.
- BmiWorkflow.Classify: reals have no NaN; the source would classify a NaN
  index as "Obese".
- EssayWorkflow.Average: the mean is an exact real, not a float.
- Text.ToLower: lower-cases ASCII letters only; Unicode case mapping is not
  modelled.
- TweetWorkflow.Invoke: the engine's step limit (`recursion_limit`, 25 by
  default) is not modelled. In the program a run whose node count (`Trace`,
  2 per optimize pass plus 2) goes past the limit raises `GraphRecursionError`;
  the model lets every run reach END. The script's own run stays within ten
  nodes (`ScriptRunSteps`).
- TweetWorkflow.InitialState: `tweet`, `evaluation` and `feedback` are absent
  in the script's input. The model gives them placeholder values, which the
  generator and the evaluator overwrite before any node reads them.
