/** The email drafter (adi-vp-agent-demo/lib/agents/email-drafter.ts): the prompt parts
    built from the inputs, one model invocation, and the post-processing of the reply into
    an `EmailDraft`, with every failure inside the `try` collapsed into one message. */
module Drafter {
  import opened Results
  import opened Text
  import opened Json
  import opened Llm
  import opened Types

  const DraftFailure := "Failed to draft email"
  const DefaultConfidence: real := 0.85
  const SampleSeparator := "\n\n---\n\n"
  const RequirementSeparator := ", "

  /** Stands for the TypeError raised by `jdSummary.key_requirements.join` when the
      requirements are not an array; the prompt is built before the `try`, so this error
      reaches the caller unwrapped. */
  const PromptErrorMessage := "TypeError: jdSummary.key_requirements.join is not a function"

  /** One rendered sample: `Sample {i+1} - {title}:\n{content}`. */
  function SampleBlock(index: nat, sample: SampleInput): string
  {
    "Sample " + NatToString(index + 1) + " - " + sample.title + ":\n" + sample.content
  }

  function SampleBlocks(samples: seq<SampleInput>): (r: seq<string>)
    ensures |r| == |samples|
    ensures forall i :: 0 <= i < |samples| ==> r[i] == SampleBlock(i, samples[i])
  {
    seq(|samples|, i requires 0 <= i < |samples| => SampleBlock(i, samples[i]))
  }

  /** The `samplesText` the prompt embeds. */
  function SamplesText(samples: seq<SampleInput>): string
  {
    Join(SampleBlocks(samples), SampleSeparator)
  }

  /** Samples appear in input order: one more sample adds its block, numbered after the
      others, at the end, behind the separator. */
  lemma SamplesTextSnoc(samples: seq<SampleInput>, last: SampleInput)
    ensures SamplesText(samples + [last]) ==
              if samples == [] then SampleBlock(0, last)
              else SamplesText(samples) + SampleSeparator + SampleBlock(|samples|, last)
  {
    assert SampleBlocks(samples + [last]) == SampleBlocks(samples) + [SampleBlock(|samples|, last)];
    JoinSnoc(SampleBlocks(samples), SampleBlock(|samples|, last), SampleSeparator);
  }

  /** `key_requirements.join(', ')` for a list of strings. */
  function RequirementsLine(requirements: seq<string>): string
  {
    Join(requirements, RequirementSeparator)
  }

  /** Requirements appear in list order, separated by `", "`. */
  lemma RequirementsLineSnoc(requirements: seq<string>, last: string)
    ensures RequirementsLine(requirements + [last]) ==
              if requirements == [] then last
              else RequirementsLine(requirements) + RequirementSeparator + last
  {
    JoinSnoc(requirements, last, RequirementSeparator);
  }

  /** The parts of the user prompt that depend on the inputs, in prompt order. The role
      summary is `jdSummary.summary` as read (`None` is `undefined`); the requirements
      line is `None` when some requirement is not a string (see README). */
  datatype DraftPrompt = DraftPrompt(
    resume: string,
    samplesText: string,
    company: string,
    roleSummary: Option<JValue>,
    requirementsLine: Option<string>,
    jobDescription: string)

  /** The prompt, or the TypeError of `.join` on requirements that are not an array. */
  function BuildPrompt(jobDescription: string, company: string, resume: string,
                       jdSummary: JValue, samples: seq<SampleInput>): (r: Result<DraftPrompt>)
    ensures r.Ok? <==> Member(jdSummary, "key_requirements").Some? && Member(jdSummary, "key_requirements").value.JArr?
    ensures r.Err? ==> r.message == PromptErrorMessage
    ensures r.Ok? ==> r.value.resume == resume && r.value.company == company && r.value.jobDescription == jobDescription
    ensures r.Ok? ==> r.value.samplesText == SamplesText(samples)
    ensures r.Ok? ==> r.value.roleSummary == Member(jdSummary, "summary")
  {
    match Member(jdSummary, "key_requirements")
    case Some(JArr(items)) =>
      var line := match StringsOf(items)
        case Some(strs) => Some(RequirementsLine(strs))
        case None => None;
      Ok(DraftPrompt(resume, SamplesText(samples), company, Member(jdSummary, "summary"), line, jobDescription))
    case _ => Err(PromptErrorMessage)
  }

  /** A summary produced by the summariser always yields a prompt, whose requirements line
      is the summary's requirements joined in order. */
  lemma PromptOfSummary(jobDescription: string, company: string, resume: string,
                        s: JDSummary, samples: seq<SampleInput>)
    ensures BuildPrompt(jobDescription, company, resume, SummaryJson(s), samples).Ok?
    ensures BuildPrompt(jobDescription, company, resume, SummaryJson(s), samples).value.requirementsLine
            == Some(RequirementsLine(s.key_requirements))
  {
    StringsOfJStrings(s.key_requirements);
  }

  /** `typeof v === 'number'`. */
  predicate IsNumber(v: Option<JValue>)
  {
    v.Some? && v.value.JNum?
  }

  /** `confidence_score` when it is a number, `0.85` otherwise. */
  function Confidence(fields: map<string, JValue>): (c: real)
    ensures IsNumber(Get(fields, "confidence_score")) ==> c == fields["confidence_score"].n
    ensures !IsNumber(Get(fields, "confidence_score")) ==> c == DefaultConfidence
  {
    match Get(fields, "confidence_score")
    case Some(JNum(n)) => n
    case _ => DefaultConfidence
  }

  /** The checks and the result built from the parsed reply. */
  function DraftFromFields(fields: map<string, JValue>): (r: Result<EmailDraft>)
    ensures r.Ok? <==> Truthy(Get(fields, "subject")) && Truthy(Get(fields, "email_body"))
    ensures r.Err? ==> r.message == DraftFailure
    ensures r.Ok? ==> r.value.subject == fields["subject"] && r.value.email_body == fields["email_body"]
    ensures r.Ok? ==> r.value.confidence_score == Confidence(fields)
  {
    if !Truthy(Get(fields, "subject")) || !Truthy(Get(fields, "email_body")) then
      Err(DraftFailure)
    else
      Ok(EmailDraft(fields["email_body"], fields["subject"], Confidence(fields)))
  }

  /** The three members of a draft as the route serialises it. */
  function DraftFields(d: EmailDraft): map<string, JValue>
  {
    map["subject" := d.subject, "email_body" := d.email_body, "confidence_score" := JNum(d.confidence_score)]
  }

  /** A draft with truthy subject and body survives being written out and read back,
      whatever its confidence: the score is not clamped to [0, 1]. */
  lemma DraftFieldsRoundTrip(d: EmailDraft)
    requires Truthy(Some(d.subject)) && Truthy(Some(d.email_body))
    ensures DraftFromFields(DraftFields(d)) == Ok(d)
  {
    var f := DraftFields(d);
    assert Get(f, "subject") == Some(d.subject);
    assert Get(f, "email_body") == Some(d.email_body);
    assert Get(f, "confidence_score") == Some(JNum(d.confidence_score));
  }

  /** Only `subject`, `email_body` and `confidence_score` matter: any other member of the
      parsed object is dropped. */
  lemma DraftIgnoresOtherMembers(fields: map<string, JValue>, key: string, v: JValue)
    requires key != "subject" && key != "email_body" && key != "confidence_score"
    ensures DraftFromFields(fields[key := v]) == DraftFromFields(fields)
  {
    var g := fields[key := v];
    assert Get(g, "subject") == Get(fields, "subject");
    assert Get(g, "email_body") == Get(fields, "email_body");
    assert Get(g, "confidence_score") == Get(fields, "confidence_score");
  }

  /** What a call to `draftEmail` did: the prompts it sent to the model, and its outcome. */
  datatype DraftRun = DraftRun(invocations: seq<DraftPrompt>, result: Result<EmailDraft>)

  function DraftEmail(jobDescription: string, company: string, resume: string, jdSummary: JValue,
                      samples: seq<SampleInput>, reply: ModelReply, parse: Parser): (r: DraftRun)
    ensures BuildPrompt(jobDescription, company, resume, jdSummary, samples).Err? ==>
              r.invocations == [] && r.result == Err(PromptErrorMessage)
    ensures BuildPrompt(jobDescription, company, resume, jdSummary, samples).Ok? ==>
              && r.invocations == [BuildPrompt(jobDescription, company, resume, jdSummary, samples).value]
              && (r.result.Ok? <==> ParsedReply(reply, parse).Some? && DraftFromFields(ParsedReply(reply, parse).value).Ok?)
              && (r.result.Err? ==> r.result.message == DraftFailure)
    ensures r.result.Ok? ==> r.result == DraftFromFields(ParsedReply(reply, parse).value)
  {
    match BuildPrompt(jobDescription, company, resume, jdSummary, samples)
    case Err(m) => DraftRun([], Err(m))
    case Ok(prompt) =>
      var result := match ParsedReply(reply, parse)
        case None => Err(DraftFailure)
        case Some(fields) => DraftFromFields(fields);
      DraftRun([prompt], result)
  }

  /** A reply whose brace span parses to an object with truthy subject and body yields
      that draft, with the confidence defaulted when it is not a number. */
  lemma DraftFromReply(jobDescription: string, company: string, resume: string, s: JDSummary,
                       samples: seq<SampleInput>, prefix: string, body: string, suffix: string,
                       parse: Parser, fields: map<string, JValue>)
    requires '{' !in prefix && '}' !in suffix
    requires parse("{" + body + "}") == Some(fields)
    requires Truthy(Get(fields, "subject")) && Truthy(Get(fields, "email_body"))
    ensures DraftEmail(jobDescription, company, resume, SummaryJson(s), samples,
                       Replied(prefix + "{" + body + "}" + suffix), parse).result
            == Ok(EmailDraft(fields["email_body"], fields["subject"], Confidence(fields)))
  {
    PromptOfSummary(jobDescription, company, resume, s, samples);
    ExtractJsonIsGreedy(prefix, body, suffix);
  }

  /** A reply without a `{` before a `}` fails with the drafter's one message, after
      exactly one invocation. */
  lemma DraftWithoutBraces(jobDescription: string, company: string, resume: string, s: JDSummary,
                           samples: seq<SampleInput>, content: string, parse: Parser)
    requires !HasBracePair(content)
    ensures DraftEmail(jobDescription, company, resume, SummaryJson(s), samples, Replied(content), parse)
            == DraftRun([BuildPrompt(jobDescription, company, resume, SummaryJson(s), samples).value],
                        Err(DraftFailure))
  {
    PromptOfSummary(jobDescription, company, resume, s, samples);
  }
}
