/**
 The resource handlers: a single listed resource, and a reader that accepts
 `resource:///block/{id}` and resolves only the id `default`.
 */
module Resources {
  import opened Js
  import Text

  const BlockPrefix: string := "resource:///block/"
  const DefaultUri: string := BlockPrefix + "default"
  const AgentName: string := "Systemprompt default"
  const AgentDescription: string := "An expert agent for Gmail, Calendar management and task organization"
  const InvalidUriMessage: string := "Invalid resource URI format - expected resource:///block/{id}"
  const NotFoundMessage: string := "Resource not found"

  /**
   `JSON.stringify` of the default agent's name, description, instruction,
   voice and config, as served for `resource:///block/default`.
   */
  const AgentJson: string := @"{""name"":""Systemprompt default"",""description"":""An expert agent for Gmail, Calendar management and task organization"",""instruction"":""You are a specialized agent with deep expertise in email management, calendar organization, and task coordination. Your capabilities include:\n\n1. Email Management (Gmail):\n- List, search, and analyze email messages\n- Send emails and manage drafts\n- Handle attachments and labels\n- Process email content intelligently\n\n2. Calendar Operations:\n- Schedule and manage meetings\n- Analyze calendar availability\n- Track events and deadlines\n- Identify scheduling conflicts\n\n3. Task Organization:\n- Create and manage todo lists\n- Prioritize tasks effectively\n- Track deadlines and progress\n- Optimize task workflows\n\n4. Smart Communication:\n- Compose well-structured emails\n- Analyze communication patterns\n- Maintain professional tone\n- Handle multi-participant coordination\n\nYou have access to specialized tools and prompts for each of these areas. Always select the most appropriate tool for the task and execute operations efficiently while maintaining high quality and reliability."",""voice"":""Kore"",""config"":{""model"":""models/gemini-2.0-flash-exp"",""generationConfig"":{""responseModalities"":""audio"",""speechConfig"":{""voiceConfig"":{""prebuiltVoiceConfig"":{""voiceName"":""Kore""}}}}}}"

  /** The characters the regular-expression `.` does not match. */
  predicate IsLineTerminator(c: char)
  {
    c in {'\n', '\r', '\U{2028}', '\U{2029}'}
  }

  predicate NoLineTerminator(s: string)
  {
    forall i :: 0 <= i < |s| ==> !IsLineTerminator(s[i])
  }

  /**
   `uri.match(/^resource:\/\/\/block\/(.+)$/)`: the capture is everything after
   the prefix, slashes included; it must be non-empty and hold no line
   terminator.
   */
  function MatchBlockUri(uri: string): (id: Option<string>)
    ensures id.Some? ==> uri == BlockPrefix + id.value && id.value != "" && NoLineTerminator(id.value)
  {
    if Text.StartsWith(uri, BlockPrefix) && |uri| > |BlockPrefix| && NoLineTerminator(uri[|BlockPrefix|..])
    then
      assert uri == BlockPrefix + uri[|BlockPrefix|..];
      Some(uri[|BlockPrefix|..])
    else None
  }

  /** Every non-empty id without line terminators is captured back from its URI. */
  lemma MatchBlockUriRoundTrip(id: string)
    requires id != "" && NoLineTerminator(id)
    ensures MatchBlockUri(BlockPrefix + id) == Some(id)
  {
    var uri := BlockPrefix + id;
    assert uri[..|BlockPrefix|] == BlockPrefix;
    assert uri[|BlockPrefix|..] == id;
  }

  datatype Listed = Listed(uri: string, name: string, description: string, mimeType: string)

  /** `handleListResources`: the request (its tag filter included) is not consulted. */
  function List(filter: seq<string>): (r: seq<Listed>)
    ensures |r| == 1
    ensures r[0].uri == DefaultUri && r[0].name == AgentName && r[0].mimeType == "text/plain"
  {
    [Listed(DefaultUri, AgentName, AgentDescription, "text/plain")]
  }

  datatype ContentItem = ContentItem(uri: string, mimeType: string, text: string)
  datatype ReadResult = ReadResult(contents: seq<ContentItem>, tags: seq<string>)

  /** `handleResourceCall`; a missing `uri` fails on the `match` call. */
  function Read(uri: Option<string>): (r: Result<ReadResult>)
    ensures uri.None? ==> r == Err(UndefinedRead("match"))
    ensures uri.Some? && MatchBlockUri(uri.value).None? ==> r == Err(Fail(InvalidUriMessage))
    ensures r.Ok? ==> (uri.Some? && |r.value.contents| == 1 && r.value.tags == ["agent"]
      && r.value.contents[0] == ContentItem(uri.value, "text/plain", AgentJson))
  {
    match uri
    case None => Err(UndefinedRead("match"))
    case Some(u) =>
      match MatchBlockUri(u)
      case None => Err(Fail(InvalidUriMessage))
      case Some(id) =>
        if id != "default" then Err(Fail(NotFoundMessage))
        else Ok(ReadResult([ContentItem(u, "text/plain", AgentJson)], ["agent"]))
  }

  /**
   Reading succeeds for exactly one URI; a well-formed URI with any other id,
   even one that only starts with `default`, is not found.
   */
  lemma ReadResolvesOnlyDefault(uri: string)
    ensures Read(Some(uri)).Ok? <==> uri == DefaultUri
    ensures MatchBlockUri(uri).Some? && uri != DefaultUri ==> Read(Some(uri)) == Err(Fail(NotFoundMessage))
  {
    if uri == DefaultUri {
      MatchBlockUriRoundTrip("default");
    }
  }

  /** Every listed URI can be read. */
  lemma ListedResolves(filter: seq<string>)
    ensures forall e :: e in List(filter) ==> Read(Some(e.uri)).Ok?
  {
    ReadResolvesOnlyDefault(DefaultUri);
  }
}
