/**
 The tool dispatcher: a closed switch over tool names, each branch with its
 own precondition checks, sampling request and acknowledgement text, and the
 `Tool call failed:` wrapping of failures in the branches that catch them.
 */
module Tools {
  import opened Js
  import Text
  import opened Protocol
  import Resources
  import Sampling
  import Callbacks

  const ToolCallFailed: string := "Tool call failed:"
  const UnknownTool: string := "Unknown tool:"

  const InterviewAck: string := "Interview configuration started, please wait..."
  const SummaryAck: string := "CV analysis started, please wait..."
  const InitiatePrefix: string := "Initializing interview with data:\n"

  const InterviewTags: seq<string> := ["mcp_systemprompt_interview", "interview"]
  const CvTags: seq<string> := ["mcp_systemprompt_interview", "cv"]

  const MaxTokens: nat := 100000

  // ---------------------------------------------------------------------------
  // Tool names

  /** The tools the dispatcher serves, and everything else. */
  datatype Tool =
    | ConfigureInterview
    | SummarizeCv
    | InitiateInterview
    | ListInterviews
    | ListCvs
    | Unknown(name: string)

  function ToolName(t: Tool): string
  {
    match t
    case ConfigureInterview => "configure_interview"
    case SummarizeCv => "summarize_cv"
    case InitiateInterview => "initiate_interview"
    case ListInterviews => "list_interviews"
    case ListCvs => "list_cvs"
    case Unknown(name) => name
  }

  /** The switch on `request.params.name`, by exact string equality. */
  function Route(name: string): (t: Tool)
    ensures ToolName(t) == name
  {
    if name == "configure_interview" then ConfigureInterview
    else if name == "summarize_cv" then SummarizeCv
    else if name == "initiate_interview" then InitiateInterview
    else if name == "list_interviews" then ListInterviews
    else if name == "list_cvs" then ListCvs
    else Unknown(name)
  }

  /** Routing a served tool's name gives back that tool. */
  lemma RouteRoundTrip(t: Tool)
    requires !t.Unknown?
    ensures Route(ToolName(t)) == t
  {
  }

  /**
   A tool entry of `handleListTools`: the `required` list inside the input
   schema, and the one placed beside it (where `configure_interview` has it).
   */
  datatype ToolDef = ToolDef(name: string, schemaRequired: seq<string>, entryRequired: seq<string>)

  /** `handleListTools`: only two of the served tools are advertised. */
  function ListTools(): (r: seq<ToolDef>)
    ensures |r| == 2
    ensures forall i :: 0 <= i < |r| ==> !Route(r[i].name).Unknown?
    ensures Route(r[0].name) == ConfigureInterview && Route(r[1].name) == SummarizeCv
    ensures r[0].schemaRequired == [] && r[0].entryRequired == ["cv", "description", "title"]
    ensures r[1].schemaRequired == ["cv"]
  {
    [ ToolDef("configure_interview", [], ["cv", "description", "title"]),
      ToolDef("summarize_cv", ["cv"], []) ]
  }

  // ---------------------------------------------------------------------------
  // Requests and results

  /**
   A tool call: the name and `params.arguments`, which may be missing
   altogether; a key missing from it reads as `undefined`.
   */
  datatype ToolRequest = ToolRequest(name: string, arguments: Option<map<string, string>>)

  /** The expression the branches destructure, as V8 names it in its `TypeError`. */
  const ArgumentsSource: string := "request.params.arguments"


  /** The text of the result's single content item, and `_meta.timestamp` when set. */
  datatype ToolResult = ToolResult(text: string, timestamp: Option<int>)

  function Arg(req: ToolRequest, key: string): (r: Option<string>)
    ensures r.Some? <==> req.arguments.Some? && key in req.arguments.value
    ensures r.Some? ==> r.value == req.arguments.value[key]
  {
    if req.arguments.Some? && key in req.arguments.value then Some(req.arguments.value[key]) else None
  }

  /** `notes ?? ""` */
  function Notes(req: ToolRequest): string
  {
    match Arg(req, "notes")
    case Some(n) => n
    case None => ""
  }

  /** `new Error(`${TOOL_CALL_FAILED} ${error}`)`: the caught value as `String` renders it. */
  function Wrap(t: Thrown): (r: Thrown)
    ensures r == Fail(ToolCallFailed + " " + ShowThrown(t))
  {
    Fail(ToolCallFailed + " " + ShowThrown(t))
  }

  /** A failure raised inside a branch, with the tool-call prefix. */
  function Failed(reason: string): Thrown
  {
    Fail(ToolCallFailed + " " + reason)
  }

  /** `resource?.contents?.[0]?.text`, when truthy. */
  function FirstText(r: Resources.ReadResult): (t: Option<string>)
    ensures t.Some? ==> |r.contents| > 0 && t.value == r.contents[0].text && t.value != ""
    ensures |r.contents| > 0 && r.contents[0].text != "" ==> t == Some(r.contents[0].text)
  {
    if |r.contents| > 0 && r.contents[0].text != "" then Some(r.contents[0].text) else None
  }

  // ---------------------------------------------------------------------------
  // The sampling stage both sampling tools share

  /** The `params` of `sendSamplingRequest`: the prompt's messages filled in, the fixed budget, `_meta` and the arguments. */
  function SamplingRequest(prompt: PromptId, args: map<string, Option<string>>, temperature: real,
                           callback: string, schema: Json, env: Env): (p: SamplingParams)
    ensures p.messages == env.inject(prompt, args) && p.maxTokens == MaxTokens
    ensures p.temperature == temperature && p.callback == CallbackText(callback)
    ensures p.responseSchema == schema && p.arguments == args
  {
    SamplingParams(env.inject(prompt, args), MaxTokens, temperature, CallbackText(callback), schema, args)
  }

  /**
   Fetch the prompt, insist on a response schema, send the sampling request
   and acknowledge. A failure of the prompt lookup or of the dispatch passes
   through unchanged; whether it is then wrapped is up to the branch.
   */
  function PromptAndSample(prompt: PromptId, args: map<string, Option<string>>, temperature: real,
                           callback: string, ack: string, env: Env, registry: Sampling.Registry): (r: Run<ToolResult>)
    ensures r.outcome.Ok? ==> r.outcome.value == ToolResult(ack, None)
    ensures var g := env.getPrompt(prompt, args);
      g.Err? ==> r == Run(Err(g.thrown), [])
    ensures var g := env.getPrompt(prompt, args);
      g.Ok? && !Truthy(g.value) ==> r == Run(Err(Failed("No response schema found")), [])
    ensures var g := env.getPrompt(prompt, args);
      g.Ok? && Truthy(g.value) ==>
        var s := Sampling.Send(SamplingRequest(prompt, args, temperature, callback, g.value.value, env), env, registry);
        && r.events == s.events
        && (s.outcome.Err? ==> r.outcome == Err(s.outcome.thrown))
        && (s.outcome.Ok? ==> r.outcome.Ok?)
  {
    match env.getPrompt(prompt, args)
    case Err(t) => Run(Err(t), [])
    case Ok(schema) =>
      if !Truthy(schema) then Run(Err(Failed("No response schema found")), [])
      else
        var s := Sampling.Send(SamplingRequest(prompt, args, temperature, callback, schema.value, env), env, registry);
        match s.outcome
        case Ok(_) => Run(Ok(ToolResult(ack, None)), s.events)
        case Err(t) => Run(Err(t), s.events)
  }

  // ---------------------------------------------------------------------------
  // configure_interview

  function InterviewArgs(req: ToolRequest, cv: string): map<string, Option<string>>
  {
    map["title" := Arg(req, "title"), "description" := Arg(req, "description"),
        "notes" := Some(Notes(req)), "cv" := Some(cv)]
  }

  /**
   The body of the `configure_interview` branch, before its catch: read the
   CV resource, take its first text, then the shared sampling stage.
   */
  function ConfigureInterviewBody(req: ToolRequest, env: Env, registry: Sampling.Registry): (r: Run<ToolResult>)
    ensures r.outcome.Ok? ==> r.outcome.value == ToolResult(InterviewAck, None)
    ensures var read := Resources.Read(Arg(req, "cv"));
      read.Err? ==> r == Run(Err(read.thrown), [])
    ensures var read := Resources.Read(Arg(req, "cv"));
      read.Ok? && FirstText(read.value).None? ==> r == Run(Err(Failed("Invalid CV resource format")), [])
    ensures var read := Resources.Read(Arg(req, "cv"));
      read.Ok? && FirstText(read.value).Some? ==>
        r == PromptAndSample(ConfigureInterviewPrompt, InterviewArgs(req, FirstText(read.value).value), 0.7,
                             "configure_interview", InterviewAck, env, registry)
  {
    match Resources.Read(Arg(req, "cv"))
    case Err(t) => Run(Err(t), [])
    case Ok(resource) =>
      match FirstText(resource)
      case None => Run(Err(Failed("Invalid CV resource format")), [])
      case Some(cv) =>
        PromptAndSample(ConfigureInterviewPrompt, InterviewArgs(req, cv), 0.7, "configure_interview", InterviewAck, env, registry)
  }

  // ---------------------------------------------------------------------------
  // summarize_cv

  function SummaryArgs(req: ToolRequest): map<string, Option<string>>
  {
    map["cv" := Arg(req, "cv")]
  }

  /**
   The `summarize_cv` branch: the shared sampling stage and no catch of its
   own, so a failed prompt lookup or dispatch reaches the caller unchanged.
   */
  function SummarizeCvBranch(req: ToolRequest, env: Env, registry: Sampling.Registry): (r: Run<ToolResult>)
    ensures r.outcome.Ok? ==> r.outcome.value == ToolResult(SummaryAck, None)
    ensures var g := env.getPrompt(SummarizeCvPrompt, SummaryArgs(req));
      g.Err? ==> r == Run(Err(g.thrown), [])
    ensures var g := env.getPrompt(SummarizeCvPrompt, SummaryArgs(req));
      g.Ok? && Truthy(g.value) ==>
        var s := Sampling.Send(SamplingRequest(SummarizeCvPrompt, SummaryArgs(req), 0.5, "summarize_cv", g.value.value, env),
                               env, registry);
        && r.events == s.events
        && (s.outcome.Err? ==> r.outcome == Err(s.outcome.thrown))
  {
    PromptAndSample(SummarizeCvPrompt, SummaryArgs(req), 0.5, "summarize_cv", SummaryAck, env, registry)
  }

  // ---------------------------------------------------------------------------
  // initiate_interview and the listings

  /** The body of the `initiate_interview` branch, before its catch. */
  function InitiateInterviewBody(req: ToolRequest): (r: Result<ToolResult>)
    ensures r.Ok? ==> Text.StartsWith(r.value.text, InitiatePrefix)
  {
    match Resources.Read(Arg(req, "interviewUri"))
    case Err(t) => Err(t)
    case Ok(resource) =>
      match FirstText(resource)
      case None => Err(Failed("Invalid interview resource format"))
      case Some(text) =>
        var out := InitiatePrefix + text;
        assert out[..|InitiatePrefix|] == InitiatePrefix;
        Ok(ToolResult(out, None))
  }

  function Quoted(s: string): string
  {
    "\"" + s + "\""
  }

  /** One listed resource as `JSON.stringify(_, null, 2)` lays it out inside an array. */
  function PrettyEntry(e: Resources.Listed): string
  {
    "  {\n"
    + "    \"uri\": " + Quoted(e.uri) + ",\n"
    + "    \"name\": " + Quoted(e.name) + ",\n"
    + "    \"description\": " + Quoted(e.description) + ",\n"
    + "    \"mimeType\": " + Quoted(e.mimeType) + "\n"
    + "  }"
  }

  function PrettyEntries(es: seq<Resources.Listed>): (r: seq<string>)
    ensures |r| == |es| && forall i :: 0 <= i < |es| ==> r[i] == PrettyEntry(es[i])
  {
    if |es| == 0 then [] else [PrettyEntry(es[0])] + PrettyEntries(es[1..])
  }

  /** `JSON.stringify(resources, null, 2)`, for strings that need no escapes. */
  function PrettyList(es: seq<Resources.Listed>): string
  {
    if |es| == 0 then "[]" else "[\n" + Text.Join(PrettyEntries(es), ",\n") + "\n]"
  }

  /** The `list_interviews` and `list_cvs` branches; `now` stands for `Date.now()`. */
  function Listing(tags: seq<string>, now: int): (r: ToolResult)
    ensures r.timestamp == Some(now)
  {
    ToolResult(PrettyList(Resources.List(tags)), Some(now))
  }

  // ---------------------------------------------------------------------------
  // The dispatcher

  /**
   `handleToolCall`. The three branches that read arguments destructure them
   before any inner `try`, so a missing arguments object throws a `TypeError`
   that the outer catch rethrows unchanged, as it does every other failure.
   */
  function Call(req: ToolRequest, env: Env, registry: Sampling.Registry, now: int): (r: Run<ToolResult>)
    ensures Route(req.name).Unknown? ==> r == Run(Err(Fail(UnknownTool + " " + req.name)), [])
    ensures Route(req.name) == InitiateInterview ==> r.events == []
    ensures Route(req.name) == ListInterviews ==> r == Run(Ok(Listing(InterviewTags, now)), [])
    ensures Route(req.name) == ListCvs ==> r == Run(Ok(Listing(CvTags, now)), [])
    ensures req.arguments.None? && Route(req.name) == ConfigureInterview ==>
      r == Run(Err(DestructureUndefined("title", ArgumentsSource)), [])
    ensures req.arguments.None? && Route(req.name) == SummarizeCv ==>
      r == Run(Err(DestructureUndefined("cv", ArgumentsSource)), [])
    ensures req.arguments.None? && Route(req.name) == InitiateInterview ==>
      r == Run(Err(DestructureUndefined("interviewUri", ArgumentsSource)), [])
    ensures req.arguments.Some? && Route(req.name) == ConfigureInterview ==>
      var b := ConfigureInterviewBody(req, env, registry);
      && r.events == b.events
      && (b.outcome.Ok? ==> r.outcome == b.outcome)
      && (b.outcome.Err? ==> r.outcome == Err(Wrap(b.outcome.thrown)))
    ensures req.arguments.Some? && Route(req.name) == SummarizeCv ==> r == SummarizeCvBranch(req, env, registry)
  {
    match Route(req.name)
    case ConfigureInterview =>
      if req.arguments.None? then Run(Err(DestructureUndefined("title", ArgumentsSource)), [])
      else
        var b := ConfigureInterviewBody(req, env, registry);
        if b.outcome.Err? then Run(Err(Wrap(b.outcome.thrown)), b.events) else b
    case SummarizeCv =>
      if req.arguments.None? then Run(Err(DestructureUndefined("cv", ArgumentsSource)), [])
      else SummarizeCvBranch(req, env, registry)
    case InitiateInterview =>
      if req.arguments.None? then Run(Err(DestructureUndefined("interviewUri", ArgumentsSource)), [])
      else
        var b := InitiateInterviewBody(req);
        Run(if b.Err? then Err(Wrap(b.thrown)) else b, [])
    case ListInterviews => Run(Ok(Listing(InterviewTags, now)), [])
    case ListCvs => Run(Ok(Listing(CvTags, now)), [])
    case Unknown(name) => Run(Err(Fail(UnknownTool + " " + name)), [])
  }

  /** Whether the events record a sampling request. */
  predicate Sampled(events: seq<Event>)
  {
    exists i :: 0 <= i < |events| && events[i].ModelInvoked?
  }

  /**
   `configure_interview` only gets as far as sampling with the CV URI
   `resource:///block/default`, the one resource the reader resolves; any
   other CV URI fails, wrapped, with nothing emitted.
   */
  lemma InterviewNeedsReadableCv(req: ToolRequest, env: Env, registry: Sampling.Registry, now: int)
    requires Route(req.name) == ConfigureInterview
    ensures req.arguments.Some? && Arg(req, "cv") != Some(Resources.DefaultUri) ==>
      Call(req, env, registry, now) == Run(Err(Wrap(Resources.Read(Arg(req, "cv")).thrown)), [])
    ensures Sampled(Call(req, env, registry, now).events) ==> Arg(req, "cv") == Some(Resources.DefaultUri)
  {
    var cv := Arg(req, "cv");
    if cv.Some? {
      Resources.ReadResolvesOnlyDefault(cv.value);
    }
  }

  /**
   The sampling request `configure_interview` sends: the model-formatted CV is
   the agent resource's text, notes default to empty, and the request carries
   the fixed token budget, temperature 0.7 and the `configure_interview`
   callback.
   */
  lemma InterviewSamplingRequest(req: ToolRequest, env: Env, registry: Sampling.Registry, now: int, i: nat)
    requires Route(req.name) == ConfigureInterview
    requires var es := Call(req, env, registry, now).events; i < |es| && es[i].ModelInvoked?
    ensures var p := Call(req, env, registry, now).events[i].params;
      && p.maxTokens == MaxTokens && p.temperature == 0.7
      && p.callback == CallbackText("configure_interview")
      && p.arguments == InterviewArgs(req, Resources.AgentJson)
      && p.arguments["notes"] == Some(Notes(req))
      && (Arg(req, "notes").None? ==> p.arguments["notes"] == Some(""))
  {
    InterviewNeedsReadableCv(req, env, registry, now);
    ConfigureEventsFromSampling(req, env, registry, i);
  }

  /**
   The sampling request `summarize_cv` sends: the fixed token budget,
   temperature 0.5, the `summarize_cv` callback, and the one argument `cv`
   taken from the tool call.
   */
  lemma SummarySamplingRequest(req: ToolRequest, env: Env, registry: Sampling.Registry, i: nat)
    requires var es := SummarizeCvBranch(req, env, registry).events; i < |es| && es[i].ModelInvoked?
    ensures var p := SummarizeCvBranch(req, env, registry).events[i].params;
      && p.maxTokens == MaxTokens && p.temperature == 0.5
      && p.callback == CallbackText("summarize_cv")
      && p.arguments == map["cv" := Arg(req, "cv")]
  {
    var args := SummaryArgs(req);
    var schema := env.getPrompt(SummarizeCvPrompt, args);
    var p := SamplingRequest(SummarizeCvPrompt, args, 0.5, "summarize_cv", schema.value.value, env);
    SendEventsFromRequest(p, env, registry, i);
  }

  /** Every event of the `configure_interview` body comes from its one sampling request. */
  lemma ConfigureEventsFromSampling(req: ToolRequest, env: Env, registry: Sampling.Registry, i: nat)
    requires Arg(req, "cv") == Some(Resources.DefaultUri)
    requires var es := ConfigureInterviewBody(req, env, registry).events; i < |es| && es[i].ModelInvoked?
    ensures var p := ConfigureInterviewBody(req, env, registry).events[i].params;
      && p.maxTokens == MaxTokens && p.temperature == 0.7
      && p.callback == CallbackText("configure_interview")
      && p.arguments == InterviewArgs(req, Resources.AgentJson)
  {
    Resources.ReadResolvesOnlyDefault(Resources.DefaultUri);
    var args := InterviewArgs(req, Resources.AgentJson);
    var schema := env.getPrompt(ConfigureInterviewPrompt, args);
    var p := SamplingRequest(ConfigureInterviewPrompt, args, 0.7, "configure_interview", schema.value.value, env);
    SendEventsFromRequest(p, env, registry, i);
  }

  /** The only sampling request a dispatch records is the one it was given. */
  lemma SendEventsFromRequest(p: SamplingParams, env: Env, registry: Sampling.Registry, i: nat)
    requires var es := Sampling.Send(p, env, registry).events; i < |es| && es[i].ModelInvoked?
    ensures Sampling.Send(p, env, registry).events[i] == ModelInvoked(p)
  {
    var r := Sampling.Send(p, env, registry);
    if env.validate(p).None? && env.createMessage(p).Ok? && Sampling.HasCallback(p) && i > 0 {
      var h := Sampling.HandleCallback(p.callback.name, env.createMessage(p).value, env, registry);
      assert r.events[i] == h.events[i - 1];
      CallbackEventsNotSampling(p.callback.name, env.createMessage(p).value, env, registry, i - 1);
    }
  }

  /** Callback handlers emit no sampling requests of their own. */
  lemma CallbackEventsNotSampling(name: string, result: SamplingResult, env: Env, registry: Sampling.Registry, k: nat)
    requires k < |Sampling.HandleCallback(name, result, env, registry).events|
    ensures !Sampling.HandleCallback(name, result, env, registry).events[k].ModelInvoked?
  {
    var h := Sampling.HandleCallback(name, result, env, registry);
    if registry == Sampling.Intended && name == "configure_interview" && !(name in Sampling.EmailCallbacks) {
      var text := result.content.text;
      var p := env.parse(text);
      assert Truthy(Field(p.value, "systemPromptMetadata")) by {
        assert Truthy(Field(p.value, Callbacks.PlanFields[3]));
      }
    } else if registry == Sampling.Intended && name == "summarize_cv" && !(name in Sampling.EmailCallbacks) {
      var text := result.content.text;
      var p := env.parse(text);
      assert Truthy(Field(p.value, Callbacks.SummaryFields[3]));
    }
  }

  /**
   A falsy response schema aborts both sampling tools before any sampling
   request: `summarize_cv` with the prefixed message, `configure_interview`
   with that message wrapped once more by its own catch.
   */
  lemma MissingSchemaAborts(req: ToolRequest, env: Env, registry: Sampling.Registry, now: int)
    requires Route(req.name) == SummarizeCv
    requires env.getPrompt(SummarizeCvPrompt, SummaryArgs(req)).Ok?
    requires !Truthy(env.getPrompt(SummarizeCvPrompt, SummaryArgs(req)).value)
    ensures req.arguments.Some? ==> Call(req, env, registry, now) == Run(Err(Failed("No response schema found")), [])
  {
  }

  /** Reading the default URI gives the agent text as the first content text. */
  lemma DefaultCvText(req: ToolRequest)
    requires Arg(req, "cv") == Some(Resources.DefaultUri)
    ensures Resources.Read(Arg(req, "cv")).Ok?
    ensures FirstText(Resources.Read(Arg(req, "cv")).value) == Some(Resources.AgentJson)
  {
    Resources.ReadResolvesOnlyDefault(Resources.DefaultUri);
    assert |Resources.AgentJson| > 0;
  }

  /** The `configure_interview` counterpart: the inner message ends up prefixed twice. */
  lemma MissingSchemaAbortsInterview(req: ToolRequest, env: Env, registry: Sampling.Registry, now: int)
    requires Route(req.name) == ConfigureInterview && Arg(req, "cv") == Some(Resources.DefaultUri)
    requires env.getPrompt(ConfigureInterviewPrompt, InterviewArgs(req, Resources.AgentJson)).Ok?
    requires !Truthy(env.getPrompt(ConfigureInterviewPrompt, InterviewArgs(req, Resources.AgentJson)).value)
    ensures Call(req, env, registry, now) == Run(Err(Wrap(Failed("No response schema found"))), [])
  {
    DefaultCvText(req);
  }

  /** A failure the branch raises itself carries the tool-call prefix twice once caught. */
  lemma WrapOfFailed(reason: string)
    ensures Wrap(Failed(reason)).message == "Tool call failed: Error: Tool call failed: " + reason
  {
  }

  /**
   `initiate_interview` answers with the agent resource's text exactly for the
   default URI; anything else fails with the reader's error, prefixed.
   */
  lemma InitiateInterviewResult(req: ToolRequest, env: Env, registry: Sampling.Registry, now: int)
    requires Route(req.name) == InitiateInterview
    ensures var r := Call(req, env, registry, now);
      && (r.outcome.Ok? <==> Arg(req, "interviewUri") == Some(Resources.DefaultUri))
      && (r.outcome.Ok? ==> r.outcome.value.text == InitiatePrefix + Resources.AgentJson)
      && (req.arguments.Some? && r.outcome.Err? ==> r.outcome.thrown == Wrap(Resources.Read(Arg(req, "interviewUri")).thrown))
  {
    var u := Arg(req, "interviewUri");
    if u.Some? {
      Resources.ReadResolvesOnlyDefault(u.value);
    }
  }

  /**
   The two listing tools pass different tag filters, but the resource listing
   ignores its request, so both answer with the same text.
   */
  lemma ListingsIgnoreTags(now: int)
    ensures InterviewTags != CvTags
    ensures Listing(InterviewTags, now) == Listing(CvTags, now)
  {
    assert InterviewTags[1] != CvTags[1];
  }

  /**
   With the callback table of the source, neither sampling tool can ever
   acknowledge: every path fails, including the one where the model answers.
   */
  lemma SamplingToolsFailAsWritten(req: ToolRequest, env: Env, now: int)
    requires Route(req.name) == ConfigureInterview || Route(req.name) == SummarizeCv
    ensures Call(req, env, Sampling.AsWritten, now).outcome.Err?
  {
    if Route(req.name) == ConfigureInterview {
      var b := ConfigureInterviewBody(req, env, Sampling.AsWritten);
      var cv := Arg(req, "cv");
      if cv == Some(Resources.DefaultUri) {
        Resources.ReadResolvesOnlyDefault(Resources.DefaultUri);
        var args := InterviewArgs(req, Resources.AgentJson);
        var schema := env.getPrompt(ConfigureInterviewPrompt, args);
        if schema.Ok? && Truthy(schema.value) {
          var p := SamplingRequest(ConfigureInterviewPrompt, args, 0.7, "configure_interview", schema.value.value, env);
          assert !Sampling.Routed("configure_interview", Sampling.AsWritten);
          assert Sampling.Send(p, env, Sampling.AsWritten).outcome.Err?;
        }
      }
    } else {
      var args := SummaryArgs(req);
      var schema := env.getPrompt(SummarizeCvPrompt, args);
      if schema.Ok? && Truthy(schema.value) {
        var p := SamplingRequest(SummarizeCvPrompt, args, 0.5, "summarize_cv", schema.value.value, env);
        assert !Sampling.Routed("summarize_cv", Sampling.AsWritten);
        assert Sampling.Send(p, env, Sampling.AsWritten).outcome.Err?;
      }
    }
  }

  /**
   With the intended callback table, `summarize_cv` acknowledges once the
   prompt has a schema, the model answers with a well-formed summary, the
   storage client is initialised and the block is stored; the block creation
   and the resource-list change are recorded on the way.
   */
  lemma SummaryAcknowledgedWhenIntended(req: ToolRequest, env: Env, now: int)
    requires Route(req.name) == SummarizeCv && req.arguments.Some?
    requires var schema := env.getPrompt(SummarizeCvPrompt, SummaryArgs(req));
      schema.Ok? && Truthy(schema.value)
    requires forall p :: env.validate(p).None?
    requires forall p :: env.createMessage(p).Ok? && env.createMessage(p).value.content.TextContent?
    requires forall s :: env.parse(s).Ok? && Callbacks.AllTruthy(env.parse(s).value, Callbacks.SummaryFields)
    requires env.service.Holding?
    requires forall b :: env.createBlock(b).None?
    ensures var r := Call(req, env, Sampling.Intended, now);
      && r.outcome == Ok(ToolResult(SummaryAck, None))
      && ResourceListChanged in r.events
      && Protocol.CreateCalls(r.events) == 1
  {
    var args := SummaryArgs(req);
    var schema := env.getPrompt(SummarizeCvPrompt, args);
    var p := SamplingRequest(SummarizeCvPrompt, args, 0.5, "summarize_cv", schema.value.value, env);
    var result := env.createMessage(p).value;
    var text := result.content.text;
    var summary := env.parse(text).value;
    assert Truthy(Field(summary, Callbacks.SummaryFields[3]));
    var b := Callbacks.BlockFor(text, Callbacks.MetaOf(summary));
    var h := Callbacks.SummarizeCv(result, env);
    assert h.events == [JsonResultNotice(b), CreateBlockCall(b), ResourceListChanged,
                        OperationNotice("summarize_cv", Callbacks.SummaryMessage(summary))];
    var s := Sampling.Send(p, env, Sampling.Intended);
    assert s.events == [ModelInvoked(p)] + h.events;
    assert CreateCalls(s.events) == CreateCalls(h.events);
  }
}
