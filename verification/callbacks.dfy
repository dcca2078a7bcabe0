/**
 The two model-output callbacks: the interview-plan callback and the CV-summary
 callback. Each accepts only text content, parses it as JSON, requires four
 truthy properties, announces the block record, stores it once, and reports a
 message that embeds fields of the parsed output.
 */
module Callbacks {
  import opened Js
  import Text
  import Storage
  import opened Protocol

  const ExpectedText: string := "Expected text content"
  const InvalidPlan: string := "Invalid interview plan format"
  const InvalidSummary: string := "Invalid CV summary format"

  /** The properties an interview plan must carry, all truthy. */
  const PlanFields: seq<string> := ["interviewId", "interviewPlan", "metadata", "systemPromptMetadata"]

  /** The properties a CV summary must carry, all truthy. */
  const SummaryFields: seq<string> := ["personalInfo", "skills", "metadata", "systemPromptMetadata"]

  predicate AllTruthy(v: Json, keys: seq<string>)
  {
    forall k :: k in keys ==> Truthy(Field(v, k))
  }

  /** The block record: the model's text verbatim, and four properties of `systemPromptMetadata`. */
  function BlockFor(text: string, meta: Json): (b: BlockData)
    ensures b.content == text
    ensures b.prefix == Field(meta, "prefix") && b.title == Field(meta, "title")
    ensures b.description == Field(meta, "description") && b.tag == Field(meta, "tag")
  {
    BlockData(text, Field(meta, "prefix"), Field(meta, "title"), Field(meta, "description"), Field(meta, "tag"))
  }

  /** The checked output's `systemPromptMetadata`, present once `AllTruthy` holds. */
  function MetaOf(v: Json): Json
    requires Truthy(Field(v, "systemPromptMetadata"))
  {
    Field(v, "systemPromptMetadata").value
  }

  function PlanMessage(plan: Json): (m: string)
    ensures Text.StartsWith(m, "Successfully created interview plan " + Show(Field(plan, "interviewId")) + " with ")
    ensures m == "Successfully created interview plan " + Show(Field(plan, "interviewId")) + " with "
      + Show(Chain(Field(plan, "metadata"), "totalQuestions")) + " questions"
  {
    var head := "Successfully created interview plan " + Show(Field(plan, "interviewId")) + " with ";
    var m := head + Show(Chain(Field(plan, "metadata"), "totalQuestions")) + " questions";
    assert m[..|head|] == head;
    m
  }

  function SummaryMessage(summary: Json): (m: string)
    ensures Text.StartsWith(m, "Successfully processed CV summary for " + Show(Chain(Field(summary, "metadata"), "primaryDomain")))
    ensures m == "Successfully processed CV summary for " + Show(Chain(Field(summary, "metadata"), "primaryDomain")) + " role"
  {
    var head := "Successfully processed CV summary for " + Show(Chain(Field(summary, "metadata"), "primaryDomain"));
    var m := head + " role";
    assert m[..|head|] == head;
    m
  }

  /**
   Announces and stores the block: the JSON-result notice, then the service
   lookup, then the one `createBlock` call, then (for the CV callback only)
   the resource-list change, then the operation notice carrying `message`.
   */
  function Store(block: BlockData, env: Env, operation: string, message: string, listChanged: bool): (r: Run<string>)
    ensures |r.events| >= 1 && r.events[0] == JsonResultNotice(block)
    ensures |r.events| == 1 + CreateCalls(r.events) + (if r.outcome.Ok? then (if listChanged then 2 else 1) else 0)
    ensures forall k :: 0 <= k < |r.events| ==> !r.events[k].ModelInvoked?
    ensures CreateCalls(r.events) <= 1
    ensures CreateCalls(r.events) == 1 <==> Storage.GetInstance(env.service).Ok?
    ensures CreateCalls(r.events) == 1 ==> r.events[1] == CreateBlockCall(block)
    ensures r.outcome.Ok? <==> Storage.GetInstance(env.service).Ok? && env.createBlock(block).None?
    ensures Storage.GetInstance(env.service).Ok? && env.createBlock(block).Some? ==>
      r.outcome == Err(env.createBlock(block).value)
    ensures r.outcome.Ok? ==> r.outcome.value == message && r.events[|r.events| - 1] == OperationNotice(operation, message)
    ensures r.outcome.Ok? ==> NoticeText(r.events[|r.events| - 1]) == "Operation " + operation + ": " + message
    ensures r.outcome.Ok? ==> (ResourceListChanged in r.events <==> listChanged)
    ensures r.outcome.Err? ==> ResourceListChanged !in r.events
    ensures Storage.GetInstance(env.service).Err? ==> r.outcome == Err(Fail(Storage.NotInitializedMessage))
  {
    var announced := [JsonResultNotice(block)];
    match Storage.GetInstance(env.service)
    case Err(t) => Run(Err(t), announced)
    case Ok(_) =>
      var called := announced + [CreateBlockCall(block)];
      match env.createBlock(block)
      case Some(t) => Run(Err(t), called)
      case None =>
        Run(Ok(message), called + (if listChanged then [ResourceListChanged] else []) + [OperationNotice(operation, message)])
  }

  /** `handleConfigureInterviewCallback`. */
  function ConfigureInterview(result: SamplingResult, env: Env): (r: Run<string>)
    ensures !result.content.TextContent? ==> r == Run(Err(Fail(ExpectedText)), [])
    ensures result.content.TextContent? && env.parse(result.content.text).Err? ==>
      r == Run(Err(env.parse(result.content.text).thrown), [])
    ensures CreateCalls(r.events) <= 1
    ensures ResourceListChanged !in r.events
    ensures result.content.TextContent? && env.parse(result.content.text).Ok? ==>
      var plan := env.parse(result.content.text).value;
      !plan.JNull? && AllTruthy(plan, PlanFields) ==>
        r == Store(BlockFor(result.content.text, MetaOf(plan)), env, "configure_interview", PlanMessage(plan), false)
    ensures forall k :: 0 <= k < |r.events| ==> !r.events[k].ModelInvoked?
  {
    match result.content
    case OtherContent(_) => Run(Err(Fail(ExpectedText)), [])
    case TextContent(text) =>
      match env.parse(text)
      case Err(t) => Run(Err(t), [])
      case Ok(plan) =>
        if plan.JNull? then Run(Err(NullRead("interviewId")), [])
        else if !AllTruthy(plan, PlanFields) then Run(Err(Fail(InvalidPlan)), [])
        else
          assert Truthy(Field(plan, PlanFields[3]));
          Store(BlockFor(text, MetaOf(plan)), env, "configure_interview", PlanMessage(plan), false)
  }

  /** `handleSummarizeCVCallback`: every parse or shape failure reads the same. */
  function SummarizeCv(result: SamplingResult, env: Env): (r: Run<string>)
    ensures !result.content.TextContent? ==> r == Run(Err(Fail(ExpectedText)), [])
    ensures CreateCalls(r.events) <= 1
    ensures result.content.TextContent? && env.parse(result.content.text).Ok? ==>
      var summary := env.parse(result.content.text).value;
      AllTruthy(summary, SummaryFields) ==>
        r == Store(BlockFor(result.content.text, MetaOf(summary)), env, "summarize_cv", SummaryMessage(summary), true)
    ensures forall k :: 0 <= k < |r.events| ==> !r.events[k].ModelInvoked?
  {
    match result.content
    case OtherContent(_) => Run(Err(Fail(ExpectedText)), [])
    case TextContent(text) =>
      match env.parse(text)
      case Err(_) => Run(Err(Fail(InvalidSummary)), [])
      case Ok(summary) =>
        if !AllTruthy(summary, SummaryFields) then Run(Err(Fail(InvalidSummary)), [])
        else
          assert Truthy(Field(summary, SummaryFields[3]));
          Store(BlockFor(text, MetaOf(summary)), env, "summarize_cv", SummaryMessage(summary), true)
  }

  /**
   The interview callback gets as far as announcing a block exactly when the
   text parses to a non-null value with all four required properties truthy;
   otherwise it fails with the format error (or the parser's own error, or the
   `TypeError` of reading from `null`) before emitting anything.
   */
  lemma InterviewChecks(result: SamplingResult, env: Env)
    requires result.content.TextContent?
    ensures var r := ConfigureInterview(result, env);
      var p := env.parse(result.content.text);
      && (|r.events| > 0 <==> p.Ok? && !p.value.JNull? && AllTruthy(p.value, PlanFields))
      && (p.Ok? && p.value.JNull? ==> r == Run(Err(NullRead("interviewId")), []))
      && (p.Ok? && !p.value.JNull? && !AllTruthy(p.value, PlanFields) ==> r == Run(Err(Fail(InvalidPlan)), []))
  {
  }

  /**
   The CV callback gets as far as announcing a block exactly when the text
   parses with all four required properties truthy; every other failure
   before that point is the single format error.
   */
  lemma SummaryChecks(result: SamplingResult, env: Env)
    requires result.content.TextContent?
    ensures var r := SummarizeCv(result, env);
      var p := env.parse(result.content.text);
      && (|r.events| > 0 <==> p.Ok? && AllTruthy(p.value, SummaryFields))
      && (|r.events| == 0 ==> r.outcome == Err(Fail(InvalidSummary)))
  {
    var p := env.parse(result.content.text);
    if p.Ok? && p.value.JNull? {
      assert Field(p.value, SummaryFields[0]).None?;
    }
  }

  /**
   The stored block keeps the model's text verbatim and copies the four
   properties of `systemPromptMetadata`; the same record is announced first
   and then handed to `createBlock`.
   */
  lemma BlockKeepsOutput(result: SamplingResult, env: Env, summary: bool)
    requires result.content.TextContent?
    ensures var r := if summary then SummarizeCv(result, env) else ConfigureInterview(result, env);
      var p := env.parse(result.content.text);
      |r.events| > 0 ==>
        && p.Ok? && Truthy(Field(p.value, "systemPromptMetadata"))
        && r.events[0] == JsonResultNotice(BlockFor(result.content.text, MetaOf(p.value)))
        && (CreateCalls(r.events) == 1 ==> r.events[1] == CreateBlockCall(r.events[0].block))
  {
    var p := env.parse(result.content.text);
    if p.Ok? {
      if summary && AllTruthy(p.value, SummaryFields) {
        assert Truthy(Field(p.value, SummaryFields[3]));
      } else if !summary && !p.value.JNull? && AllTruthy(p.value, PlanFields) {
        assert Truthy(Field(p.value, PlanFields[3]));
      }
    }
  }

  /**
   On success the message returned is the one the operation notice carries,
   and it names the plan's id (or the summary's primary domain); only the CV
   callback announces a resource-list change, and only after the block call.
   */
  lemma SuccessReported(result: SamplingResult, env: Env)
    requires result.content.TextContent?
    ensures var r := ConfigureInterview(result, env);
      r.outcome.Ok? ==>
        && r.events[|r.events| - 1] == OperationNotice("configure_interview", r.outcome.value)
        && r.outcome.value == PlanMessage(env.parse(result.content.text).value)
        && |r.events| == 3 && CreateCalls(r.events) == 1 && r.events[1].CreateBlockCall?
        && ResourceListChanged !in r.events
    ensures var r := SummarizeCv(result, env);
      r.outcome.Ok? ==>
        && r.events[|r.events| - 1] == OperationNotice("summarize_cv", r.outcome.value)
        && r.outcome.value == SummaryMessage(env.parse(result.content.text).value)
        && |r.events| == 4 && CreateCalls(r.events) == 1 && r.events[1].CreateBlockCall? && r.events[2] == ResourceListChanged
  {
    var text := result.content.text;
    var p := env.parse(text);
    if SummarizeCv(result, env).outcome.Ok? {
      assert Truthy(Field(p.value, SummaryFields[3]));
      var b := BlockFor(text, MetaOf(p.value));
      var r := Store(b, env, "summarize_cv", SummaryMessage(p.value), true);
      assert r.events == [JsonResultNotice(b), CreateBlockCall(b), ResourceListChanged, OperationNotice("summarize_cv", SummaryMessage(p.value))];
    }
  }
}
