/** The five-step wizard page (frontend/app/page.tsx): its state, the three asynchronous
    handlers with the fetch outcome as a parameter, the unconditional "next" buttons, and the
    writing-sample list. Events arrive only from the screen of the current step. */
module Wizard {
  import opened Results
  import opened Text
  import opened Json
  import opened Types
  import opened Http
  import opened Samples
  import Drafter
  import SummarizeRoute
  import DraftRoute
  import PublishRoute

  const AnalyzeError := "Error analyzing job description. Please try again."
  const GenerateError := "Error generating email. Please try again."
  const PublishStatusFallback := "Failed to publish"
  const PublishFallback := "Error publishing to GitHub"

  datatype WizardState = WizardState(
    step: nat,
    jobDescription: string,
    companyName: string,
    resume: string,
    samples: seq<WritingSample>,
    isLoading: bool,
    isPublishing: bool,
    summary: Option<JDSummary>,
    emailDraft: Option<EmailDraft>,
    githubResult: Option<GitHubResult>,
    error: string)

  const Initial := WizardState(1, "", "", "", [], false, false, None, None, None, "")

  /** The user's own inputs are the same in both states. */
  predicate SameInputs(a: WizardState, b: WizardState)
  {
    a.jobDescription == b.jobDescription && a.resume == b.resume && a.samples == b.samples
  }

  /** `handleAnalyzeJD`, from the click to the `finally`. */
  function AnalyzeJD(s: WizardState, reply: Fetched<JDSummary>): (r: WizardState)
    ensures !r.isLoading && r.isPublishing == s.isPublishing
    ensures SameInputs(r, s) && r.emailDraft == s.emailDraft && r.githubResult == s.githubResult
    ensures Succeeded(reply) ==>
              && r.step == 2 && r.error == ""
              && r.summary == Some(reply.response.value)
              && r.companyName == reply.response.value.company_name
    ensures !Succeeded(reply) ==>
              r.step == s.step && r.error == AnalyzeError && r.summary == s.summary && r.companyName == s.companyName
  {
    var pending := s.(isLoading := true, error := "");
    match reply
    case Answered(Success(v)) =>
      pending.(summary := Some(v), companyName := v.company_name, step := 2, isLoading := false)
    case _ =>
      pending.(error := AnalyzeError, isLoading := false)
  }

  /** `handleGenerateEmail`, from the click to the `finally`. */
  function GenerateEmail(s: WizardState, reply: Fetched<EmailDraft>): (r: WizardState)
    ensures !r.isLoading && r.isPublishing == s.isPublishing
    ensures SameInputs(r, s) && r.summary == s.summary && r.companyName == s.companyName
    ensures r.githubResult == s.githubResult
    ensures Succeeded(reply) ==> r.step == 4 && r.error == "" && r.emailDraft == Some(reply.response.value)
    ensures !Succeeded(reply) ==> r.step == s.step && r.error == GenerateError && r.emailDraft == s.emailDraft
  {
    var pending := s.(isLoading := true, error := "");
    match reply
    case Answered(Success(d)) => pending.(emailDraft := Some(d), step := 4, isLoading := false)
    case _ => pending.(error := GenerateError, isLoading := false)
  }

  /** The message `handlePublish` shows: the route's `error` (or "Failed to publish") for
      an error status, the rejection's message (or the fallback) when `fetch` fails. */
  function PublishErrorMessage(reply: Fetched<GitHubResult>): (m: string)
    requires !Succeeded(reply)
    ensures m != ""
    ensures reply.Answered? && reply.response.error != "" ==> m == reply.response.error
    ensures reply.NetworkFailure? && reply.message != "" ==> m == reply.message
  {
    match reply
    case Answered(ErrorStatus(_, e)) => if e == "" then PublishStatusFallback else e
    case NetworkFailure(m) => if m == "" then PublishFallback else m
  }

  /** `handlePublish`, from the click to the `finally`; it never moves the step. */
  function Publish(s: WizardState, reply: Fetched<GitHubResult>): (r: WizardState)
    ensures r.step == s.step && !r.isPublishing && r.isLoading == s.isLoading
    ensures SameInputs(r, s) && r.summary == s.summary && r.emailDraft == s.emailDraft
    ensures r == s.(githubResult := r.githubResult, error := r.error, isPublishing := false)
    ensures Succeeded(reply) ==> r.githubResult == Some(reply.response.value) && r.error == ""
    ensures !Succeeded(reply) ==> r.githubResult == s.githubResult && r.error == PublishErrorMessage(reply)
  {
    var pending := s.(isPublishing := true, error := "");
    match reply
    case Answered(Success(g)) => pending.(githubResult := Some(g), isPublishing := false)
    case _ => pending.(error := PublishErrorMessage(reply), isPublishing := false)
  }

  /** The sample `addWritingSample` builds. */
  function NewSample(count: nat, title: string, content: string, now: string): (x: WritingSample)
    ensures x.id == now && x.content == content && x.wordCount == WordCount(content)
    ensures !IsBlank(title) ==> x.title == Trim(title)
    ensures IsBlank(title) ==> x.title == "Sample " + NatToString(count + 1)
    ensures x.title != ""
  {
    var t := Trim(title);
    WritingSample(now, if t == "" then "Sample " + NatToString(count + 1) else t, content, WordCount(content))
  }

  /** `addWritingSample`: the new sample goes to the end, behind the unchanged others. */
  function AddWritingSample(s: WizardState, title: string, content: string, now: string): (r: WizardState)
    ensures |r.samples| == |s.samples| + 1
    ensures r.samples[..|s.samples|] == s.samples
    ensures r.samples[|s.samples|] == NewSample(|s.samples|, title, content, now)
    ensures r == s.(samples := r.samples)
  {
    s.(samples := s.samples + [NewSample(|s.samples|, title, content, now)])
  }

  /** `removeSample`. */
  function RemoveSample(s: WizardState, id: string): (r: WizardState)
    ensures forall k :: 0 <= k < |r.samples| ==> r.samples[k].id != id
    ensures r == s.(samples := r.samples)
  {
    s.(samples := Without(s.samples, id))
  }

  /** Adding a sample under a fresh id and removing it again leaves the page as it was. */
  lemma AddThenRemoveSample(s: WizardState, title: string, content: string, now: string)
    requires forall k :: 0 <= k < |s.samples| ==> s.samples[k].id != now
    ensures RemoveSample(AddWritingSample(s, title, content, now), now) == s
  {
    AddThenRemove(s.samples, NewSample(|s.samples|, title, content, now));
  }

  /** Everything the user can do, with the outcome of the request the handler makes. */
  datatype Event =
    | EditJobDescription(text: string)
    | AnalyzeClicked(summaryReply: Fetched<JDSummary>)
    | EditResume(text: string)
    | ResumeNext
    | AddSampleClicked(title: string, content: string, now: string)
    | RemoveSampleClicked(id: string)
    | SamplesNext(draftReply: Fetched<EmailDraft>)
    | ReviewNext
    | PublishClicked(publishReply: Fetched<GitHubResult>)

  /** The step whose screen offers the event. */
  function ScreenOf(e: Event): (k: nat)
    ensures 1 <= k <= 5
  {
    match e
    case EditJobDescription(_) => 1
    case AnalyzeClicked(_) => 1
    case EditResume(_) => 2
    case ResumeNext => 2
    case AddSampleClicked(_, _, _) => 3
    case RemoveSampleClicked(_) => 3
    case SamplesNext(_) => 3
    case ReviewNext => 4
    case PublishClicked(_) => 5
  }

  function Apply(s: WizardState, e: Event): WizardState
  {
    match e
    case EditJobDescription(text) => s.(jobDescription := text)
    case AnalyzeClicked(reply) => AnalyzeJD(s, reply)
    case EditResume(text) => s.(resume := text)
    case ResumeNext => s.(step := 3)
    case AddSampleClicked(title, content, now) => AddWritingSample(s, title, content, now)
    case RemoveSampleClicked(id) => RemoveSample(s, id)
    case SamplesNext(reply) => GenerateEmail(s, reply)
    case ReviewNext => s.(step := 5)
    case PublishClicked(reply) => Publish(s, reply)
  }

  /** The events that move the wizard on: a successful analyze or generate, and the two
      unconditional "next" buttons. */
  predicate Advances(e: Event)
  {
    match e
    case AnalyzeClicked(reply) => Succeeded(reply)
    case ResumeNext => true
    case SamplesNext(reply) => Succeeded(reply)
    case ReviewNext => true
    case _ => false
  }

  /** From its own screen, an event moves the wizard exactly one step when it advances
      and leaves the step alone otherwise; publishing never moves it. */
  lemma StepAdvancesOnlyOnSuccess(s: WizardState, e: Event)
    requires s.step == ScreenOf(e)
    ensures Apply(s, e).step == if Advances(e) then s.step + 1 else s.step
  {
  }

  /** Only the current screen's controls exist, so other events change nothing. */
  function Deliver(s: WizardState, e: Event): WizardState
  {
    if s.step == ScreenOf(e) then Apply(s, e) else s
  }

  function Run(s: WizardState, events: seq<Event>): WizardState
    decreases |events|
  {
    if |events| == 0 then s else Run(Deliver(s, events[0]), events[1..])
  }

  /** What every reachable state satisfies: the step is one of the five, the review and
      later screens have a summary, and the review and publish screens have a draft. */
  predicate Consistent(s: WizardState)
  {
    && 1 <= s.step <= 5
    && (s.step >= 2 ==> s.summary.Some?)
    && (s.step >= 4 ==> s.emailDraft.Some?)
  }

  lemma DeliverKeepsConsistent(s: WizardState, e: Event)
    requires Consistent(s)
    ensures Consistent(Deliver(s, e))
  {
  }

  lemma {:induction false} RunKeepsConsistent(s: WizardState, events: seq<Event>)
    requires Consistent(s)
    ensures Consistent(Run(s, events))
    decreases |events|
  {
    if |events| > 0 {
      DeliverKeepsConsistent(s, events[0]);
      RunKeepsConsistent(Deliver(s, events[0]), events[1..]);
    }
  }

  /** Every state the page can reach from its initial state is consistent. */
  lemma ReachableIsConsistent(events: seq<Event>)
    ensures Consistent(Run(Initial, events))
  {
    RunKeepsConsistent(Initial, events);
  }

  /** The request bodies the three handlers send; a missing summary or draft is `null`. */
  function AnalyzeRequest(s: WizardState): map<string, JValue>
  {
    map[JobDescriptionKey := JStr(s.jobDescription)]
  }

  function SummaryOrNull(summary: Option<JDSummary>): JValue
  {
    match summary
    case Some(v) => SummaryJson(v)
    case None => JNull
  }

  function DraftRequest(s: WizardState): map<string, JValue>
  {
    map[
      JobDescriptionKey := JStr(s.jobDescription),
      CompanyNameKey := JStr(s.companyName),
      ResumeKey := JStr(s.resume),
      SummaryKey := SummaryOrNull(s.summary),
      SamplesKey := SamplesJson(s.samples)]
  }

  function DraftOrNull(draft: Option<EmailDraft>): JValue
  {
    match draft
    case Some(d) => JObj(Drafter.DraftFields(d))
    case None => JNull
  }

  function PublishRequest(s: WizardState): map<string, JValue>
  {
    map[
      CompanyNameKey := JStr(s.companyName),
      SummaryKey := SummaryOrNull(s.summary),
      DraftKey := DraftOrNull(s.emailDraft),
      ResumeKey := JStr(s.resume)]
  }

  lemma RequestMembers(s: WizardState)
    ensures Get(DraftRequest(s), JobDescriptionKey) == Some(JStr(s.jobDescription))
    ensures Get(DraftRequest(s), CompanyNameKey) == Some(JStr(s.companyName))
    ensures Get(DraftRequest(s), ResumeKey) == Some(JStr(s.resume))
    ensures Get(DraftRequest(s), SummaryKey) == Some(SummaryOrNull(s.summary))
    ensures Get(DraftRequest(s), SamplesKey) == Some(SamplesJson(s.samples))
    ensures Get(PublishRequest(s), CompanyNameKey) == Some(JStr(s.companyName))
    ensures Get(PublishRequest(s), ResumeKey) == Some(JStr(s.resume))
    ensures Get(PublishRequest(s), SummaryKey) == Some(SummaryOrNull(s.summary))
    ensures Get(PublishRequest(s), DraftKey) == Some(DraftOrNull(s.emailDraft))
  {
    RequestKeysDistinct();
  }

  /** The analyze request passes the summarise route's guard exactly when the job
      description is non-empty, and carries that text. */
  lemma AnalyzeRequestAccepted(s: WizardState)
    ensures SummarizeRoute.ValidateSummarize(Body(AnalyzeRequest(s))).Accepted? <==> s.jobDescription != ""
    ensures s.jobDescription != "" ==>
              SummarizeRoute.ValidateSummarize(Body(AnalyzeRequest(s))).inputs == s.jobDescription
  {
    assert Get(AnalyzeRequest(s), JobDescriptionKey) == Some(JStr(s.jobDescription));
  }

  /** On the samples screen, with non-empty texts and a non-empty role summary, the
      generate request passes every guard of the draft route and hands the drafter the
      page's own samples. */
  lemma DraftRequestAccepted(s: WizardState)
    requires s.jobDescription != "" && s.companyName != "" && s.resume != ""
    requires s.summary.Some? && s.summary.value.summary != ""
    requires |s.samples| > 0
    requires forall k :: 0 <= k < |s.samples| ==> s.samples[k].title != "" && s.samples[k].content != ""
    ensures DraftRoute.ValidateDraft(Body(DraftRequest(s))).Accepted?
    ensures DraftRoute.ValidateDraft(Body(DraftRequest(s))).inputs.samples == DraftRoute.SampleInputs(s.samples)
  {
    RequestMembers(s);
    var f := DraftRequest(s);
    DraftRoute.AcceptsWellFormedRequest(f, s.jobDescription, s.companyName, s.resume, s.summary.value, s.samples);
  }

  /** On the publish screen, with a company name, a resume, a role summary and a draft
      body, the publish request passes every guard of the publish route. */
  lemma PublishRequestAccepted(s: WizardState)
    requires s.companyName != "" && s.resume != ""
    requires s.summary.Some? && s.summary.value.summary != ""
    requires s.emailDraft.Some? && Truthy(Some(s.emailDraft.value.email_body))
    ensures PublishRoute.ValidatePublish(Body(PublishRequest(s))).Accepted?
    ensures PublishRoute.ValidatePublish(Body(PublishRequest(s))).inputs ==
              PublishRoute.PublishInputs(s.companyName, SummaryJson(s.summary.value),
                                         JObj(Drafter.DraftFields(s.emailDraft.value)), s.resume)
  {
    RequestMembers(s);
    var f := PublishRequest(s);
    assert Member(SummaryJson(s.summary.value), "summary") == Some(JStr(s.summary.value.summary));
    assert Member(JObj(Drafter.DraftFields(s.emailDraft.value)), "email_body") == Some(s.emailDraft.value.email_body);
    assert FirstFailure(PublishRoute.PublishChecks(f)).None?;
  }
}
