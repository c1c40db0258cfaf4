/** The HTTP surface as values: a request body after `request.json()`, a route's response,
    and what a page's `fetch` observes. */
module Http {
  import opened Results
  import opened Json

  /** `await request.json()` and the destructuring that follows it. `Unreadable` is a body
      that is not JSON, or is `null` (destructuring `null` throws); any other JSON value
      destructures to its own members, which is the empty map for a non-object. */
  datatype RequestBody = Unreadable(message: string) | Body(fields: map<string, JValue>)

  function Field(body: RequestBody, key: string): Option<JValue>
    requires body.Body?
  {
    Get(body.fields, key)
  }

  /** `NextResponse.json(value)` (status 200) or `NextResponse.json({ error }, { status })`. */
  datatype ApiResponse<+T> = Success(value: T) | ErrorStatus(status: int, error: string)

  /** What `fetch` gives a page: a rejected promise, or the route's response. */
  datatype Fetched<+T> = NetworkFailure(message: string) | Answered(response: ApiResponse<T>)

  /** `response.ok` followed by `response.json()` on the success path. */
  predicate Succeeded<T>(f: Fetched<T>)
  {
    f.Answered? && f.response.Success?
  }

  /** One guard of a route: whether it passes, and the 400 message it answers with. */
  datatype Check = Check(ok: bool, message: string)

  /** Index of the first failing guard, or `|checks|` when every guard passes. */
  function FirstFailingIndex(checks: seq<Check>): (i: nat)
    ensures i <= |checks|
    ensures i < |checks| ==> !checks[i].ok
    ensures forall k :: 0 <= k < i ==> checks[k].ok
  {
    if |checks| == 0 || !checks[0].ok then 0 else 1 + FirstFailingIndex(checks[1..])
  }

  /** The message of the first failing guard, in order; `None` when every guard passes. */
  function FirstFailure(checks: seq<Check>): (r: Option<string>)
    ensures r.None? <==> forall i :: 0 <= i < |checks| ==> checks[i].ok
    ensures r.Some? ==> exists i :: 0 <= i < |checks| && !checks[i].ok && checks[i].message == r.value
                          && forall k :: 0 <= k < i ==> checks[k].ok
  {
    var i := FirstFailingIndex(checks);
    if i < |checks| then Some(checks[i].message) else None
  }

  /** How a route's validation ended: a 400 with the first failing guard's message, an
      exception inside the route's `try` (answered by its `catch`), or the inputs it hands
      to the agent. */
  datatype Validation<+T> = Rejected(message: string) | Crashed | Accepted(inputs: T)

  /** The members of the request bodies the pages send and the routes destructure. */
  const JobDescriptionKey := "jobDescription"
  const CompanyNameKey := "companyName"
  const ResumeKey := "resume"
  const SummaryKey := "jdSummary"
  const SamplesKey := "writingSamples"
  const DraftKey := "emailDraft"

  lemma RequestKeysDistinct()
    ensures JobDescriptionKey != CompanyNameKey && JobDescriptionKey != ResumeKey
    ensures JobDescriptionKey != SummaryKey && JobDescriptionKey != SamplesKey && JobDescriptionKey != DraftKey
    ensures CompanyNameKey != ResumeKey && CompanyNameKey != SummaryKey
    ensures CompanyNameKey != SamplesKey && CompanyNameKey != DraftKey
    ensures ResumeKey != SummaryKey && ResumeKey != SamplesKey && ResumeKey != DraftKey
    ensures SummaryKey != SamplesKey && SummaryKey != DraftKey && SamplesKey != DraftKey
  {
    assert JobDescriptionKey[1] == 'o' && SummaryKey[1] == 'd';
    assert JobDescriptionKey[0] == 'j' && CompanyNameKey[0] == 'c' && ResumeKey[0] == 'r';
    assert SamplesKey[0] == 'w' && DraftKey[0] == 'e' && SummaryKey[0] == 'j';
  }
}
