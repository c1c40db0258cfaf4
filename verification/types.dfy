/** The records the wizard passes between its stages (frontend/types/index.ts), the writing
    samples of both pages, and their JSON encodings as the pages send them. */
module Types {
  import opened Json

  datatype JDSummary = JDSummary(
    company_name: string,
    summary: string,
    key_requirements: seq<string>,
    company_context: string)

  /** The drafter returns `parsed.subject` and `parsed.email_body` without checking their
      type, so they are kept as the (truthy) JSON values the model produced. */
  datatype EmailDraft = EmailDraft(
    email_body: JValue,
    subject: JValue,
    confidence_score: real)

  datatype GitHubResult = GitHubResult(
    repo_url: string,
    pr_url: string,
    commit_sha: string,
    files_created: seq<string>)

  /** A writing sample as the draft route and the drafter receive it. */
  datatype SampleInput = SampleInput(title: string, content: string)

  /** A writing sample as both pages hold it in their state. */
  datatype WritingSample = WritingSample(id: string, title: string, content: string, wordCount: nat)

  function SummaryFields(s: JDSummary): map<string, JValue>
  {
    map[
      "company_name" := JStr(s.company_name),
      "summary" := JStr(s.summary),
      "key_requirements" := JArr(JStrings(s.key_requirements)),
      "company_context" := JStr(s.company_context)]
  }

  /** `JSON.stringify` of a summary as it travels in a request body. */
  function SummaryJson(s: JDSummary): JValue
  {
    JObj(SummaryFields(s))
  }

  /** The pages send `writingSamples.map(s => ({ title: s.title, content: s.content }))`. */
  function SamplesJson(samples: seq<WritingSample>): (r: JValue)
    ensures r.JArr? && |r.items| == |samples|
    ensures forall i :: 0 <= i < |samples| ==>
              r.items[i] == JObj(map["title" := JStr(samples[i].title), "content" := JStr(samples[i].content)])
  {
    JArr(seq(|samples|, i requires 0 <= i < |samples| =>
      JObj(map["title" := JStr(samples[i].title), "content" := JStr(samples[i].content)])))
  }
}
