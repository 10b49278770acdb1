/**
 * The review-reply workflow: find the sentiment of a review, then either
 * thank the reviewer, or diagnose the complaint and answer it.
 *
 * The sentiment, the diagnosis and both replies come from the language model
 * and are parameters. The diagnosis is constrained by its schema's literal
 * types; it enters the state as the dictionary `model_dump()` produces.
 */
module ReviewWorkflow {
  import opened Wrappers
  import opened Text

  datatype IssueType = UX | Performance | Bug | Support | Other
  datatype Tone = Angry | Frustrated | Disappointed | Calm
  datatype Urgency = Low | Medium | High

  datatype Diagnosis = Diagnosis(issueType: IssueType, tone: Tone, urgency: Urgency)

  function IssueTypeName(t: IssueType): string {
    match t
    case UX => "UX"
    case Performance => "Performance"
    case Bug => "Bug"
    case Support => "Support"
    case Other => "Other"
  }

  function ToneName(t: Tone): string {
    match t
    case Angry => "angry"
    case Frustrated => "frustrated"
    case Disappointed => "disappointed"
    case Calm => "calm"
  }

  function UrgencyName(u: Urgency): string {
    match u
    case Low => "low"
    case Medium => "medium"
    case High => "high"
  }

  /** Schema validation of a literal field: only the enumerated strings are accepted. */
  function ParseIssueType(s: string): (r: Option<IssueType>)
    ensures r.Some? ==> IssueTypeName(r.value) == s
  {
    if s == "UX" then Some(UX)
    else if s == "Performance" then Some(Performance)
    else if s == "Bug" then Some(Bug)
    else if s == "Support" then Some(Support)
    else if s == "Other" then Some(Other)
    else None
  }

  function ParseTone(s: string): (r: Option<Tone>)
    ensures r.Some? ==> ToneName(r.value) == s
  {
    if s == "angry" then Some(Angry)
    else if s == "frustrated" then Some(Frustrated)
    else if s == "disappointed" then Some(Disappointed)
    else if s == "calm" then Some(Calm)
    else None
  }

  function ParseUrgency(s: string): (r: Option<Urgency>)
    ensures r.Some? ==> UrgencyName(r.value) == s
  {
    if s == "low" then Some(Low)
    else if s == "medium" then Some(Medium)
    else if s == "high" then Some(High)
    else None
  }

  /** Every enumerated value is accepted back: validation and naming are inverse. */
  lemma DiagnosisNamesParse(d: Diagnosis)
    ensures ParseIssueType(IssueTypeName(d.issueType)) == Some(d.issueType)
    ensures ParseTone(ToneName(d.tone)) == Some(d.tone)
    ensures ParseUrgency(UrgencyName(d.urgency)) == Some(d.urgency)
  {
  }

  /** `model_dump()`: the diagnosis as a dictionary with its three keys. */
  function ModelDump(d: Diagnosis): (m: map<string, string>)
    ensures m.Keys == {"issue_type", "tone", "urgency"}
    ensures ParseIssueType(m["issue_type"]) == Some(d.issueType)
    ensures ParseTone(m["tone"]) == Some(d.tone)
    ensures ParseUrgency(m["urgency"]) == Some(d.urgency)
  {
    DiagnosisNamesParse(d);
    map["issue_type" := IssueTypeName(d.issueType), "tone" := ToneName(d.tone), "urgency" := UrgencyName(d.urgency)]
  }

  datatype ReviewState = ReviewState(
    review: string,
    sentiment: Option<string>,
    diagnosis: Option<map<string, string>>,
    response: Option<string>)

  datatype ReviewNode = FindSentiment | PositiveResponse | RunDiagnosis | NegativeResponse

  /** A missing key read with `state[...]` or `diagnosis[...]`. */
  datatype ReviewError = KeyError(key: string)

  datatype ReviewRun = ReviewRun(trace: seq<ReviewNode>, final: ReviewState)

  /** The router: the lower-cased sentiment is compared with "positive". */
  function CheckSentiment(sentiment: string): (r: ReviewNode)
    ensures r == PositiveResponse || r == RunDiagnosis
    ensures r == PositiveResponse <==> ToLower(sentiment) == "positive"
  {
    if ToLower(sentiment) == "positive" then PositiveResponse else RunDiagnosis
  }

  /**
   * The comparison ignores case letter by letter: the positive branch is
   * taken exactly for the eight-letter words spelling "positive" in any mix
   * of capitals.
   */
  lemma CheckSentimentCaseInsensitive(sentiment: string)
    ensures CheckSentiment(sentiment) == PositiveResponse
        <==> |sentiment| == 8 && forall i :: 0 <= i < 8 ==> LowerChar(sentiment[i]) == "positive"[i]
  {
    if |sentiment| == 8 && forall i :: 0 <= i < 8 ==> LowerChar(sentiment[i]) == "positive"[i] {
      assert ToLower(sentiment) == "positive";
    }
  }

  /** The capitalised spelling takes the positive branch. */
  lemma CheckSentimentCapitalised()
    ensures CheckSentiment("Positive") == PositiveResponse
  {
    CheckSentimentCaseInsensitive("Positive");
  }

  /** The upper-case spelling takes the positive branch. */
  lemma CheckSentimentUpperCase()
    ensures CheckSentiment("POSITIVE") == PositiveResponse
  {
    CheckSentimentCaseInsensitive("POSITIVE");
  }

  /** Anything else, even "positive" with a trailing blank, is diagnosed. */
  lemma CheckSentimentNegativeExamples()
    ensures CheckSentiment("Negative") == RunDiagnosis
    ensures CheckSentiment("") == RunDiagnosis
    ensures CheckSentiment("Positive ") == RunDiagnosis
  {
    assert ToLower("Negative")[0] == 'n';
  }

  /** negative_response reads the diagnosis and its three keys before it answers. */
  function NegativeResponseNode(s: ReviewState, reply: string): (r: Result<string, ReviewError>)
    ensures r.Ok? <==> s.diagnosis.Some? && {"issue_type", "tone", "urgency"} <= s.diagnosis.value.Keys
  {
    match s.diagnosis
    case None => Err(KeyError("diagnosis"))
    case Some(d) =>
      if "issue_type" !in d then Err(KeyError("issue_type"))
      else if "tone" !in d then Err(KeyError("tone"))
      else if "urgency" !in d then Err(KeyError("urgency"))
      else Ok(reply)
  }

  /** The nodes write `response` (positive and negative replies) or `diagnosis`. */
  predicate WritesResponse(n: ReviewNode) {
    n == PositiveResponse || n == NegativeResponse
  }

  function CountResponseWrites(trace: seq<ReviewNode>): nat {
    if trace == [] then 0
    else (if WritesResponse(trace[0]) then 1 else 0) + CountResponseWrites(trace[1..])
  }

  /** The compiled graph. */
  function Invoke(review: string, sentiment: string, diagnosis: Diagnosis,
                  positiveReply: string, negativeReply: string): Result<ReviewRun, ReviewError>
  {
    var s1 := ReviewState(review, Some(sentiment), None, None);
    match CheckSentiment(s1.sentiment.value)
    case PositiveResponse =>
      Ok(ReviewRun([FindSentiment, PositiveResponse], s1.(response := Some(positiveReply))))
    case _ =>
      var s2 := s1.(diagnosis := Some(ModelDump(diagnosis)));
      match NegativeResponseNode(s2, negativeReply)
      case Err(e) => Err(e)
      case Ok(reply) =>
        Ok(ReviewRun([FindSentiment, RunDiagnosis, NegativeResponse], s2.(response := Some(reply))))
  }

  /**
   * Every run ends without error. The positive path runs only
   * positive_response; the negative path runs run_diagnosis, whose
   * dictionary carries every key negative_response reads, and then
   * negative_response. Exactly one node writes `response`, and `diagnosis`
   * is set exactly on the negative path.
   */
  lemma InvokeOutcome(review: string, sentiment: string, diagnosis: Diagnosis,
                      positiveReply: string, negativeReply: string)
    ensures Invoke(review, sentiment, diagnosis, positiveReply, negativeReply).Ok?
    ensures var run := Invoke(review, sentiment, diagnosis, positiveReply, negativeReply).value;
      && run.final.review == review
      && run.final.sentiment == Some(sentiment)
      && CountResponseWrites(run.trace) == 1
      && (ToLower(sentiment) == "positive" ==>
            run.trace == [FindSentiment, PositiveResponse]
            && run.final.response == Some(positiveReply)
            && run.final.diagnosis == None)
      && (ToLower(sentiment) != "positive" ==>
            run.trace == [FindSentiment, RunDiagnosis, NegativeResponse]
            && run.final.response == Some(negativeReply)
            && run.final.diagnosis == Some(ModelDump(diagnosis)))
  {
    var run := Invoke(review, sentiment, diagnosis, positiveReply, negativeReply).value;
    assert run.trace[1..][1..] == [] || run.trace[1..][1..][1..] == [];
  }
}
