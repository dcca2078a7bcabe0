/**
 The storage-backend client (`SystemPromptService`): the process-wide instance
 slot, the classification of an HTTP exchange into data or a thrown error, and
 the query string `listBlocks` sends.
 */
module Storage {
  import opened Js
  import Text

  const DefaultBaseUrl: string := "https://api.systemprompt.io/v1"
  const DefaultTag: string := "mcp_systemprompt_interview"
  const NotInitializedMessage: string := "SystemPromptService must be initialized with an API key first"
  const GenericFailure: string := "API request failed"
  const ParseFailure: string := "Failed to parse API response"
  const FetchFailure: string := "Failed to fetch"

  // ---------------------------------------------------------------------------
  // The instance slot

  /** What the constructor reads from the process environment. */
  datatype Environment = Environment(apiKey: Option<string>, baseUrl: Option<string>)

  datatype Config = Config(apiKey: string, baseUrl: string)

  /** The static `instance` field: empty, or holding a configured client. */
  datatype Slot = Empty | Holding(config: Config)

  /** `x || fallback` for an environment variable. */
  function OrDefault(v: Option<string>, fallback: string): (r: string)
    ensures v.Some? && v.value != "" ==> r == v.value
    ensures (v.None? || v.value == "") ==> r == fallback
  {
    if v.Some? && v.value != "" then v.value else fallback
  }

  /** `initialize()`: a fresh client replaces whatever the slot held. */
  function Initialize(env: Environment): (s: Slot)
    ensures s.Holding?
    ensures s.config.apiKey == OrDefault(env.apiKey, "")
    ensures s.config.baseUrl == OrDefault(env.baseUrl, DefaultBaseUrl)
  {
    Holding(Config(OrDefault(env.apiKey, ""), OrDefault(env.baseUrl, DefaultBaseUrl)))
  }

  /** `cleanup()`. */
  function Cleanup(): Slot
  {
    Empty
  }

  /** `getInstance()`: fails until `initialize` has filled the slot. */
  function GetInstance(s: Slot): (r: Result<Config>)
    ensures r.Ok? <==> s.Holding?
    ensures r.Ok? ==> r.value == s.config
    ensures r.Err? ==> r.thrown == Fail(NotInitializedMessage)
  {
    match s
    case Empty => Err(Fail(NotInitializedMessage))
    case Holding(c) => Ok(c)
  }

  /** A call of the lifecycle API. */
  datatype Lifecycle = InitializeCall(env: Environment) | CleanupCall

  function Replay(s: Slot, calls: seq<Lifecycle>): Slot
    decreases |calls|
  {
    if |calls| == 0 then s
    else
      var next := match calls[0]
        case InitializeCall(env) => Initialize(env)
        case CleanupCall => Cleanup();
      Replay(next, calls[1..])
  }

  /** Whether the last lifecycle call in `calls` is an `initialize`. */
  predicate LastIsInitialize(calls: seq<Lifecycle>)
    requires |calls| > 0
  {
    calls[|calls| - 1].InitializeCall?
  }

  /**
   After any non-empty sequence of lifecycle calls, `getInstance` succeeds
   exactly when the most recent call was `initialize`; with no calls, exactly
   when the slot already held a client.
   */
  lemma {:induction false} GetInstanceAfterCalls(s: Slot, calls: seq<Lifecycle>)
    ensures |calls| == 0 ==> (GetInstance(Replay(s, calls)).Ok? <==> s.Holding?)
    ensures |calls| > 0 ==> (GetInstance(Replay(s, calls)).Ok? <==> LastIsInitialize(calls))
    decreases |calls|
  {
    if |calls| > 0 {
      var next := match calls[0]
        case InitializeCall(env) => Initialize(env)
        case CleanupCall => Cleanup();
      GetInstanceAfterCalls(next, calls[1..]);
      if |calls| > 1 {
        assert calls[1..][|calls[1..]| - 1] == calls[|calls| - 1];
      }
    }
  }

  // ---------------------------------------------------------------------------
  // Response classification

  /** What `fetch` and `response.text()` delivered. */
  datatype Response = Response(status: int, body: string)

  /** `fetch` either yields a response or rejects with some thrown value. */
  datatype Transport = Delivered(response: Response) | Rejected(thrown: Thrown)

  /** `response.ok`. */
  predicate IsOk(status: int)
  {
    200 <= status <= 299
  }

  /** The body as parsed data: an empty body is `undefined`, anything else goes through `JSON.parse`. */
  function ParseBody(body: string, parse: string -> Result<Json>): (r: Result<Option<Json>>)
    ensures body == "" ==> r == Ok(None)
    ensures body != "" && parse(body).Ok? ==> r == Ok(Some(parse(body).value))
    ensures body != "" && parse(body).Err? ==> r == Err(Fail(ParseFailure))
  {
    if body == "" then Ok(None)
    else match parse(body)
      case Ok(j) => Ok(Some(j))
      case Err(_) => Err(Fail(ParseFailure))
  }

  /** The error message for a status that is not OK. */
  function StatusMessage(status: int, data: Option<Json>): string
  {
    if status == 403 then "Invalid API key"
    else if status == 404 then "Resource not found - it may have been deleted"
    else if status == 409 then "Resource conflict - it may have been edited"
    else if status == 400 then "Invalid data"
    else
      var m := Chain(data, "message");
      if Truthy(m) then Show(m) else GenericFailure
  }

  /** The body of the `try` block of `request`: parse first, then check the status. */
  function Classify(response: Response, parse: string -> Result<Json>): Result<Option<Json>>
  {
    match ParseBody(response.body, parse)
    case Err(t) => Err(t)
    case Ok(data) =>
      if !IsOk(response.status) then Err(Fail(StatusMessage(response.status, data)))
      else if response.status == 204 then Ok(None)
      else Ok(data)
  }

  /**
   The `catch` block of `request`: a network-level "Failed to fetch" and every
   non-`Error` value become the generic failure; other errors pass unchanged.
   */
  function NormalizeFailure(t: Thrown): (r: Thrown)
    ensures r.ErrorObj?
    ensures t.NonError? ==> r == Fail(GenericFailure)
    ensures t.ErrorObj? && t.message == FetchFailure ==> r == Fail(GenericFailure)
    ensures t.ErrorObj? && t.message != FetchFailure ==> r == t
  {
    match t
    case ErrorObj(_, msg) => if msg == FetchFailure then Fail(GenericFailure) else t
    case NonError(_, _) => Fail(GenericFailure)
  }

  /** `request<T>(...)` once the exchange has happened. `None` is `undefined`. */
  function Request(transport: Transport, parse: string -> Result<Json>): (r: Result<Option<Json>>)
    ensures r.Err? ==> r.thrown.ErrorObj? && r.thrown.message != FetchFailure
  {
    var attempt := match transport
      case Rejected(t) => Err(t)
      case Delivered(response) => Classify(response, parse);
    match attempt
    case Ok(data) => Ok(data)
    case Err(t) => Err(NormalizeFailure(t))
  }

  /** Normalising twice is normalising once. */
  lemma NormalizeIdempotent(t: Thrown)
    ensures NormalizeFailure(NormalizeFailure(t)) == NormalizeFailure(t)
  {
  }

  /** The four statuses with fixed messages, for any body that parses (or is empty). */
  lemma FixedStatusMessages(response: Response, parse: string -> Result<Json>)
    requires response.body == "" || parse(response.body).Ok?
    ensures response.status == 403 ==> Request(Delivered(response), parse) == Err(Fail("Invalid API key"))
    ensures response.status == 404 ==>
      Request(Delivered(response), parse) == Err(Fail("Resource not found - it may have been deleted"))
    ensures response.status == 409 ==>
      Request(Delivered(response), parse) == Err(Fail("Resource conflict - it may have been edited"))
    ensures response.status == 400 ==> Request(Delivered(response), parse) == Err(Fail("Invalid data"))
  {
  }

  /**
   Any other failing status reports the body's `message` when it is truthy and
   the generic failure otherwise; a body message that reads "Failed to fetch"
   is itself normalised to the generic failure.
   */
  lemma OtherStatusMessage(response: Response, parse: string -> Result<Json>)
    requires !IsOk(response.status) && response.status !in {400, 403, 404, 409}
    requires response.body == "" || parse(response.body).Ok?
    ensures var data := if response.body == "" then None else Some(parse(response.body).value);
      var m := Chain(data, "message");
      var text := if Truthy(m) then Show(m) else GenericFailure;
      Request(Delivered(response), parse) ==
        Err(Fail(if text == FetchFailure then GenericFailure else text))
  {
  }

  /** Parsing comes before the status check: a non-empty unparsable body fails the same way for every status. */
  lemma UnparsableBodyFails(response: Response, parse: string -> Result<Json>)
    requires response.body != "" && parse(response.body).Err?
    ensures Request(Delivered(response), parse) == Err(Fail(ParseFailure))
  {
  }

  /** An OK status yields the parsed body, except 204, which yields `undefined`. */
  lemma SuccessfulResponses(response: Response, parse: string -> Result<Json>)
    requires IsOk(response.status)
    requires response.body == "" || parse(response.body).Ok?
    ensures response.status == 204 ==> Request(Delivered(response), parse) == Ok(None)
    ensures response.status != 204 && response.body == "" ==> Request(Delivered(response), parse) == Ok(None)
    ensures response.status != 204 && response.body != "" ==>
      Request(Delivered(response), parse) == Ok(Some(parse(response.body).value))
  {
  }

  /** A rejected fetch surfaces as an `Error`, with "Failed to fetch" and non-errors made generic. */
  lemma RejectedTransport(t: Thrown, parse: string -> Result<Json>)
    ensures Request(Rejected(t), parse) == Err(NormalizeFailure(t))
    ensures t.ErrorObj? && t.message != FetchFailure ==> Request(Rejected(t), parse) == Err(t)
  {
  }

  // ---------------------------------------------------------------------------
  // listBlocks query

  datatype SortDirection = Asc | Desc

  function DirectionText(d: SortDirection): string
  {
    match d
    case Asc => "ASC"
    case Desc => "DESC"
  }

  /** The options of `listBlocks`; a missing option is `None`. */
  datatype ListOptions = ListOptions(
    tags: Option<seq<string>>,
    status: Option<string>,
    search: Option<string>,
    page: Option<int>,
    limit: Option<int>,
    sortBy: Option<string>,
    sortDirection: Option<SortDirection>)

  /** A string option as `if (options.x)` sees it: only a non-empty string is set. */
  function TruthyText(v: Option<string>): Option<string>
  {
    if v.Some? && v.value != "" then v else None
  }

  /** A number option as `if (options.x)` sees it (0 is skipped), rendered by `toString()`. */
  function TruthyNumber(v: Option<int>): Option<string>
  {
    if v.Some? && v.value != 0 then Some(Text.Decimal(v.value)) else None
  }

  /** The value of the `tag` parameter: the given tags joined by commas, or the default tag. */
  function TagValue(tags: Option<seq<string>>): string
  {
    if tags.Some? && |tags.value| > 0 then Text.Join(tags.value, ",") else DefaultTag
  }

  /** Rank of each parameter key in the order `listBlocks` sets them (7 for any other key). */
  function KeyRank(key: string): nat
  {
    if key == "tag" then 0
    else if key == "status" then 1
    else if key == "search" then 2
    else if key == "page" then 3
    else if key == "limit" then 4
    else if key == "sort_by" then 5
    else if key == "sort_direction" then 6
    else 7
  }

  /** Every candidate parameter in the order the statements of `listBlocks` consider them. */
  function Candidates(o: ListOptions): seq<(string, Option<string>)>
  {
    [ ("tag", Some(TagValue(o.tags))),
      ("status", TruthyText(o.status)),
      ("search", TruthyText(o.search)),
      ("page", TruthyNumber(o.page)),
      ("limit", TruthyNumber(o.limit)),
      ("sort_by", TruthyText(o.sortBy)),
      ("sort_direction", if o.sortDirection.Some? then Some(DirectionText(o.sortDirection.value)) else None) ]
  }

  /** The first value offered for `key`, if any. */
  function Offered(cs: seq<(string, Option<string>)>, key: string): Option<string>
  {
    if |cs| == 0 then None
    else if cs[0].0 == key && cs[0].1.Some? then cs[0].1
    else Offered(cs[1..], key)
  }

  /** With distinct keys, the value offered for a key is the one at its position. */
  lemma {:induction false} OfferedAt(cs: seq<(string, Option<string>)>, k: nat, key: string)
    requires k < |cs| && cs[k].0 == key
    requires forall i :: 0 <= i < |cs| && i != k ==> cs[i].0 != key
    ensures Offered(cs, key) == cs[k].1
  {
    if k > 0 {
      OfferedAt(cs[1..], k - 1, key);
    } else if cs[0].1.None? {
      OfferedAbsent(cs[1..], key);
    }
  }

  lemma {:induction false} OfferedAbsent(cs: seq<(string, Option<string>)>, key: string)
    requires forall i :: 0 <= i < |cs| ==> cs[i].0 != key
    ensures Offered(cs, key) == None
  {
    if |cs| > 0 {
      OfferedAbsent(cs[1..], key);
    }
  }

  /** The first value set for `key`, if any: `params.get(key)`. */
  function Lookup(ps: seq<(string, string)>, key: string): Option<string>
  {
    if |ps| == 0 then None
    else if ps[0].0 == key then Some(ps[0].1)
    else Lookup(ps[1..], key)
  }

  /** Keeps the candidates that are set, in order. */
  function Present(cs: seq<(string, Option<string>)>): (ps: seq<(string, string)>)
    requires forall i, j :: 0 <= i < j < |cs| ==> KeyRank(cs[i].0) < KeyRank(cs[j].0)
    ensures forall i :: 0 <= i < |ps| ==> |cs| > 0 && KeyRank(cs[0].0) <= KeyRank(ps[i].0)
    ensures forall i :: 0 <= i < |ps| ==> |cs| > 0 && KeyRank(ps[i].0) <= KeyRank(cs[|cs| - 1].0)
    ensures forall i, j :: 0 <= i < j < |ps| ==> KeyRank(ps[i].0) < KeyRank(ps[j].0)
    ensures forall key :: Lookup(ps, key) == Offered(cs, key)
  {
    if |cs| == 0 then []
    else
      var rest := Present(cs[1..]);
      assert forall i :: 0 <= i < |rest| ==> KeyRank(cs[0].0) < KeyRank(rest[i].0);
      if cs[0].1.Some? then
        var ps := [(cs[0].0, cs[0].1.value)] + rest;
        assert ps[1..] == rest;
        ps
      else rest
  }

  /**
   The parameters `listBlocks` puts in its `URLSearchParams`, in insertion
   order: always `tag` first, then each set option in a fixed order.
   */
  function QueryParams(o: ListOptions): (ps: seq<(string, string)>)
    ensures |ps| >= 1 && ps[0] == ("tag", TagValue(o.tags))
    ensures forall i :: 0 <= i < |ps| ==> KeyRank(ps[i].0) < 7
    ensures forall i, j :: 0 <= i < j < |ps| ==> KeyRank(ps[i].0) < KeyRank(ps[j].0)
    ensures Lookup(ps, "status") == TruthyText(o.status)
    ensures Lookup(ps, "search") == TruthyText(o.search)
    ensures Lookup(ps, "page") == TruthyNumber(o.page)
    ensures Lookup(ps, "limit") == TruthyNumber(o.limit)
    ensures Lookup(ps, "sort_by") == TruthyText(o.sortBy)
    ensures Lookup(ps, "sort_direction") ==
      (if o.sortDirection.Some? then Some(DirectionText(o.sortDirection.value)) else None)
  {
    var cs := Candidates(o);
    assert forall i :: 0 <= i < |cs| ==> KeyRank(cs[i].0) == i;
    var ps := Present(cs);
    OfferedAt(cs, 0, "tag");
    OfferedAt(cs, 1, "status");
    OfferedAt(cs, 2, "search");
    OfferedAt(cs, 3, "page");
    OfferedAt(cs, 4, "limit");
    OfferedAt(cs, 5, "sort_by");
    OfferedAt(cs, 6, "sort_direction");
    ps
  }

  /** `params.toString()`, without the percent-encoding of keys and values. */
  function QueryString(ps: seq<(string, string)>): string
  {
    Text.Join(seq(|ps|, i requires 0 <= i < |ps| => ps[i].0 + "=" + ps[i].1), "&")
  }

  /** The request path for a parameter list: `/block`, plus `?` and the query when there is one. */
  function PathFor(ps: seq<(string, string)>): string
  {
    var q := QueryString(ps);
    "/block" + (if q != "" then "?" + q else "")
  }

  /** The path `listBlocks` requests. */
  function ListBlocksPath(o: ListOptions): string
  {
    PathFor(QueryParams(o))
  }

  lemma PathStartsWithFirst(ps: seq<(string, string)>)
    requires |ps| >= 1
    ensures Text.StartsWith(PathFor(ps), "/block?" + ps[0].0 + "=" + ps[0].1)
  {
    var parts := seq(|ps|, i requires 0 <= i < |ps| => ps[i].0 + "=" + ps[i].1);
    Text.JoinStartsWithFirst(parts, "&");
    var q := QueryString(ps);
    assert q[..|parts[0]|] == parts[0];
    assert q != "";
    var path := PathFor(ps);
    assert path == "/block?" + q;
    assert path[..|"/block?" + parts[0]|] == "/block?" + parts[0];
  }

  /** The tag parameter is always set, so the path always carries a query string that starts with it. */
  lemma ListBlocksAlwaysQueried(o: ListOptions)
    ensures Text.StartsWith(ListBlocksPath(o), "/block?tag=" + TagValue(o.tags))
  {
    var ps := QueryParams(o);
    PathStartsWithFirst(ps);
    assert "/block?" + ps[0].0 + "=" + ps[0].1 == "/block?tag=" + TagValue(o.tags);
  }
}
