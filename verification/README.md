# systemprompt-mcp-interview, modelled in Dafny

The system is an MCP server that helps prepare job interviews. It offers four
kinds of behaviour:

- Tools. `configure_interview` and `summarize_cv` start model sampling
  requests. `initiate_interview` reads a resource. `list_interviews` and
  `list_cvs` list resources.
- A sampling dispatcher. It validates a request, calls the client's model,
  and routes the answer to a callback named in `_meta.callback`.
- Two model-output callbacks. Each checks the model's JSON and stores it as a
  block in the systemprompt.io backend.
- A resource reader. It serves one agent definition at
  `resource:///block/default`.

Behind these sit two service clients. The Gmail client validates recipients,
assembles raw MIME messages and replies, and projects message metadata through
a label cache. The systemprompt.io REST client turns an HTTP exchange into
data or an error and builds the `listBlocks` query.

The model is functional:

- Every operation is a pure function.
- Outside collaborators are function-typed fields of `Protocol.Env`:
  - the request validator;
  - the client's `createMessage`;
  - the four e-mail callback handlers;
  - `JSON.parse`;
  - the backend's `createBlock`;
  - the prompt lookup;
  - variable injection.
- Each operation returns `Run(outcome, events)`:
  - the outcome is `Ok(value)` or `Err(thrown)`;
  - the events are the notifications and outside calls it made, in order.
- A thrown value is either an `Error` with a name and message, or any other
  value, for which the model records only its truthiness and its `String(...)`
  rendering.

The modules follow the source layout:

| module | file | models |
|---|---|---|
| `Js` | js.dfy | JSON values, truthiness, `?.` chains, thrown values and their `String(...)` rendering |
| `Text` | text.dfy | `split`, `join`, ECMAScript `trim`, `startsWith`, global replace, `Number#toString` |
| `Storage` | storage.dfy | `src/services/systemprompt-service.ts` |
| `EmailAddress` | email_address.dfy | `validateEmail`, `validateEmailList` |
| `Gmail` | gmail.dfy | the rest of the pure logic of `src/services/gmail-service.ts` |
| `Protocol` | protocol.dfy | MCP message shapes, the event log, collaborators, the notification text |
| `Callbacks` | callbacks.dfy | `src/handlers/callbacks.ts` |
| `Sampling` | sampling.dfy | `src/handlers/sampling.ts` |
| `Resources` | resources.dfy | `src/handlers/resource-handlers.ts` |
| `Tools` | tools.dfy | `src/handlers/tool-handlers.ts`, `src/constants/tools.ts` |

The code and the tests disagree in one place. The test at
`src/handlers/__tests__/sampling.test.ts:171-194` expects an unknown callback
name to be ignored. The code throws `Unknown callback type: <name>`, and the
model follows the code.

`sendSamplingRequest` (`src/handlers/sampling.ts:11-30`) sends no operation
notifications around a sampling request, so the model has none.

The sampling dispatcher does not route the tool callbacks `configure_interview`
and `summarize_cv`, which is the finding below. The dispatcher therefore takes
a `Registry` parameter:
  - `AsWritten` is the code's four-name switch;
  - `Intended` also routes `configure_interview` and `summarize_cv` to their
    callbacks.

## Model

| member | source | states |
|---|---|---|
| Js.ShowThrown | src/handlers/tool-handlers.ts:92 | `${error}` of an error object with both a name and a message reads `<name>: <message>` (so `Error: <message>` for a plain `Error`); with an empty name it is just the message, with an empty message just the name; any other thrown value reads as its own string conversion |
| Text.Split | src/services/gmail-service.ts:15 | splitting on a character yields at least one piece, no piece contains the separator, and joining the pieces with it gives back the input, so empty pieces are kept |
| Text.SplitLastEmpty | src/services/gmail-service.ts:15 | a string that ends with the separator splits into pieces whose last one is empty |
| Text.Trim | src/services/gmail-service.ts:9 | trimming removes exactly the maximal leading and trailing runs of ECMAScript white space and line terminators, and leaves a result that neither starts nor ends with one |
| Text.TrimIdempotent | src/services/gmail-service.ts:9 | trimming a trimmed string changes nothing |
| Text.DigitsRoundTrip | src/services/systemprompt-service.ts:160-161 | the decimal text `toString` gives a page or limit number reads back as that number |
| Text.Decimal | src/services/systemprompt-service.ts:160-161 | the rendering of an integer is never empty and starts with `-` exactly when the number is negative; after that optional sign come only decimal digits, at least one, with no leading zero unless the number is 0, and they read back as the number's absolute value |
| Storage.Initialize | src/services/systemprompt-service.ts:17-24 | after `initialize` the slot holds a client whose key and base URL are the environment values when non-empty, else `""` and the default URL |
| Storage.GetInstance | src/services/systemprompt-service.ts:26-31 | `getInstance` succeeds exactly when the slot holds a client and returns it; otherwise it throws the not-initialised error |
| Storage.GetInstanceAfterCalls | src/services/systemprompt-service.ts:22-35 | after any sequence of `initialize`/`cleanup` calls, `getInstance` succeeds exactly when the last call was `initialize` (or, with no calls, when the slot was already filled) |
| Storage.ParseBody | src/services/systemprompt-service.ts:70-76 | an empty body is no data, a body that parses is its parsed value, any other body fails with "Failed to parse API response" |
| Storage.NormalizeFailure | src/services/systemprompt-service.ts:98-106 | the catch always produces an `Error`: "Failed to fetch" and non-errors become "API request failed", every other `Error` passes unchanged |
| Storage.NormalizeIdempotent | src/services/systemprompt-service.ts:98-106 | normalising an already normalised failure changes nothing |
| Storage.Request | src/services/systemprompt-service.ts:49-107 | every failure `request` reports is an `Error`, and never one saying "Failed to fetch" |
| Storage.FixedStatusMessages | src/services/systemprompt-service.ts:78-88 | statuses 403, 404, 409 and 400 fail with their four fixed messages, whatever the readable body says |
| Storage.OtherStatusMessage | src/services/systemprompt-service.ts:88-89 | any other failing status reports the body's truthy `message`, else "API request failed", after the catch's normalisation |
| Storage.UnparsableBodyFails | src/services/systemprompt-service.ts:70-78 | a non-empty unparsable body fails with the parse error for every status, OK or not, because parsing precedes the status check |
| Storage.SuccessfulResponses | src/services/systemprompt-service.ts:93-97 | an OK 204 yields no data; another OK status yields the parsed body (none for an empty body) |
| Storage.RejectedTransport | src/services/systemprompt-service.ts:98-106 | a rejected `fetch` surfaces as its normalised failure, so an ordinary `Error` passes through unchanged |
| Storage.QueryParams | src/services/systemprompt-service.ts:150-163 | the parameter list starts with `tag` (the tags joined by commas, else the default tag); keys appear in the fixed order without repeats, and no key outside the seven it sets appears; each optional parameter is present exactly when its option is truthy, with 0 omitted for page and limit |
| Storage.ListBlocksAlwaysQueried | src/services/systemprompt-service.ts:152-166 | because `tag` is always set, the requested path always starts with `/block?tag=<tag value>` |
| EmailAddress.MatchesIsSound | src/services/gmail-service.ts:6 | every string the scanner accepts matches the address pattern as a language |
| EmailAddress.MatchesIsComplete | src/services/gmail-service.ts:6 | every string the address pattern matches is accepted by the scanner |
| EmailAddress.MatchesIsPattern | src/services/gmail-service.ts:6 | the scanner and the pattern accept exactly the same strings |
| EmailAddress.ValidateEmailMeansPattern | src/services/gmail-service.ts:6-10 | an address is valid exactly when its trimmed form matches the pattern |
| EmailAddress.ValidateList | src/services/gmail-service.ts:12-22 | the list passes exactly when every address it checks is valid; otherwise the error names the first invalid address, and all earlier ones were valid |
| EmailAddress.EmptyRecipientsPass | src/services/gmail-service.ts:12-17 | a missing recipient, an empty string and an empty array all pass |
| EmailAddress.TrailingCommaRejected | src/services/gmail-service.ts:15-19 | a recipient string ending in a comma always fails, because the empty piece after it is checked like an address |
| Gmail.Wrap76RoundTrip | src/services/gmail-service.ts:258 | deleting the newlines inserted into attachment base64 gives back the base64 text |
| Gmail.Wrap76Lines | src/services/gmail-service.ts:258 | the wrapped base64 consists of lines of exactly 76 characters followed by one final line shorter than 76 |
| Gmail.OptionalHeaderKinds | src/services/gmail-service.ts:228-230 | every optional header is a non-empty Cc, Bcc or Reply-To line and nothing else: a Cc line only when the Cc list is non-empty, a Bcc line only when the Bcc list is, and a Reply-To line only when `replyTo` is set and non-empty, reading "Reply-To: " and that address |
| Gmail.OptionalHeaderPresence | src/services/gmail-service.ts:228-230 | the Cc and Bcc headers appear exactly when their lists are non-empty, and a Reply-To header exactly when `replyTo` is truthy, then with that address; there is one header per present option and no header of another kind |
| Gmail.RawMessageLayout | src/services/gmail-service.ts:215-267 | the raw message starts with Content-Type, MIME-Version, To (joined with ", ") and Subject; then exactly one Cc, Bcc or Reply-To line per present option, carrying its value, and no other header; the first blank line ends the header section and is followed by the opening boundary, the body's text/html or text/plain content type, and, four lines later, the body itself; the attachment parts follow in order; the last line is the closing boundary |
| Gmail.AttachmentLinesAt | src/services/gmail-service.ts:245-262 | the j-th attachment occupies exactly lines 8j to 8j+7 of the attachment section |
| Gmail.AttachmentPartLayout | src/services/gmail-service.ts:251-260 | each attachment part opens with the boundary, names its content type (application/octet-stream when none is given) and carries wrapped data that unwraps to the attachment's base64 |
| Gmail.ValidateRecipients | src/services/gmail-service.ts:273-275 | recipients pass exactly when `to`, `cc` and `bcc` all pass; on failure the error is that of `to` if it fails, else that of `cc` if it fails, else that of `bcc` |
| Gmail.Submit | src/services/gmail-service.ts:269-283 | a raw message is built and handed to the provider exactly when all recipients validate; otherwise the validation error is reported and nothing is sent (`createDraft` at lines 290-304 runs the same sequence) |
| Gmail.UpdateDraft | src/services/gmail-service.ts:313-325 | without a truthy draft id, `updateDraft` fails with "Draft ID is required for updating" before anything else; with one it validates and submits like `sendEmail` |
| Gmail.InvalidToReportedFirst | src/services/gmail-service.ts:273-277 | an invalid `to` list is the error reported, whatever `cc` and `bcc` hold, and no message is built |
| Gmail.ReplySubject | src/services/gmail-service.ts:566 | a reply subject always starts with "Re:"; a subject that already does is kept, any other gets "Re: " in front |
| Gmail.ReplySubjectIdempotent | src/services/gmail-service.ts:566 | prefixing a reply subject twice is prefixing it once |
| Gmail.ReplyReferences | src/services/gmail-service.ts:560 | without prior references the header is the original message id; otherwise it is the prior references, one space and the original id (it starts with the references and a space, and its length is exactly those three parts); in both cases it ends with the original id |
| Gmail.ReplyLines | src/services/gmail-service.ts:563-572 | the reply has eight lines: the text/html or text/plain Content-Type line as `isHtml` chooses, then MIME-Version 1.0; the subject is the prefixed original subject, To is the original From, References threads the original id, In-Reply-To is the original Message-ID, then a blank line and the body |
| Gmail.LabelFor | src/services/gmail-service.ts:101-102 | a cached label keeps its id and is named by its truthy cached name, else by its id |
| Gmail.LabelsOf | src/services/gmail-service.ts:99-104 | every projected label comes from the cache under its own id, and no more labels are produced than ids given |
| Gmail.LabelsOfKeepsOrder | src/services/gmail-service.ts:99-104 | the projected label ids are the message's label ids in their original order, keeping exactly those present in the cache; each cached id appears as many times as in the input, repeats included, and an uncached id never |
| Gmail.PlainSnippetUnchanged | src/services/gmail-service.ts:109 | a snippet without entities is returned unchanged by the entity decoding |
| Gmail.Project | src/services/gmail-service.ts:92-121 | the metadata keeps the id and thread id; it is unread or important exactly when the label ids contain UNREAD or IMPORTANT; a missing or empty subject reads "(no subject)"; the labels are the cached projection of the label ids (none when they are missing); the snippet is the decoded snippet, or "" when missing; it has attachments exactly when some part has a non-empty file name |
| Protocol.NoticeText | src/handlers/notifications.ts:41 | the operation notification text starts with "Operation <op>: ", ends with the message, and is exactly as long as those two parts |
| Callbacks.BlockFor | src/handlers/callbacks.ts:30-38 | the block keeps the model's text verbatim as content and copies prefix, title, description and tag from `systemPromptMetadata` |
| Callbacks.PlanMessage | src/handlers/callbacks.ts:45 | the interview message is "Successfully created interview plan <interviewId> with <metadata.totalQuestions> questions", each value in its string conversion |
| Callbacks.SummaryMessage | src/handlers/callbacks.ts:91 | the CV message is "Successfully processed CV summary for <metadata.primaryDomain> role" |
| Callbacks.Store | src/handlers/callbacks.ts:39-47 | the JSON-result notice comes first; `createBlock` is called at most once, exactly when the service is initialised, with the announced block; the events are exactly the JSON-result notice, the block call when made, and on success the list change when asked for and the operation notice, so nothing else is emitted; success means the service was initialised and the block was stored, and it ends with the operation notice carrying the returned message, whose text is "Operation <operation>: <message>"; a rejection by `createBlock` propagates unchanged and an uninitialised service fails with the fixed message; no sampling request is among its events; only a `listChanged` store signals a resource-list change, and never on failure |
| Callbacks.ConfigureInterview | src/handlers/callbacks.ts:12-48 | non-text content fails with "Expected text content" before parsing; a parser error propagates unwrapped; once the plan is non-null with its four properties truthy, the outcome is exactly that of storing its block with the plan message and no list change; at most one block is created, no list change is signalled and no sampling request is sent |
| Callbacks.SummarizeCv | src/handlers/callbacks.ts:55-94 | non-text content fails with "Expected text content"; once the summary has its four properties truthy, the outcome is exactly that of storing its block with the summary message and a list change; at most one block is created and no sampling request is sent |
| Callbacks.InterviewChecks | src/handlers/callbacks.ts:19-28 | the interview callback emits anything exactly when the text parses to a non-null value with all four required properties truthy; a null parse is the TypeError of reading `interviewId`; a missing property is "Invalid interview plan format", with nothing emitted |
| Callbacks.SummaryChecks | src/handlers/callbacks.ts:60-73 | the CV callback emits anything exactly when the text parses with all four required properties truthy; every earlier failure is "Invalid CV summary format" |
| Callbacks.BlockKeepsOutput | src/handlers/callbacks.ts:30-43 | once a callback emits anything, the first event announces the block built from the model's text and its `systemPromptMetadata`, and a block call that follows stores that same block |
| Callbacks.SuccessReported | src/handlers/callbacks.ts:85-93 | on success the returned message is the plan or summary message and is exactly the text of the final operation notice; the interview callback emits exactly three events and the CV callback four; both callbacks have then made exactly one `createBlock` call, second among their events; only the CV callback signals a list change, right after its block call |
| Sampling.HandleCallback | src/handlers/sampling.ts:38-51 | each e-mail callback name runs exactly its own handler, once; a name outside the table fails with "Unknown callback type: <name>" and runs nothing |
| Sampling.Normalize | src/handlers/sampling.ts:23-29 | the catch always produces an `Error`: an `Error` passes unchanged, a truthy other value becomes "Failed to process sampling request: <value>", a falsy one "… Unknown error" |
| Sampling.NormalizeIdempotent | src/handlers/sampling.ts:25-28 | normalising twice is normalising once |
| Sampling.Send | src/handlers/sampling.ts:11-30 | a rejected request fails before the model is called; otherwise the model call is the first event; a success returns exactly the model's result; every failure is an `Error` |
| Sampling.RejectedNeverSampled | src/handlers/sampling.ts:15-16 | a request the validator rejects never reaches the model and fails |
| Sampling.NoCallbackPassesThrough | src/handlers/sampling.ts:18-22 | without a non-empty string callback the model's result is returned as it is and no handler runs |
| Sampling.EmailCallbackRouted | src/handlers/sampling.ts:39-47 | an e-mail callback runs its handler after the model call; the handler's success returns the model's result, its failure is propagated normalised |
| Sampling.UnknownCallbackFails | src/handlers/sampling.ts:48-49 | any other callback name fails with "Unknown callback type: <name>" after the model call, and the model's result is lost |
| Sampling.ModelFailurePropagates | src/handlers/sampling.ts:14-29 | a failing model call reaches the caller normalised, and no callback runs |
| Sampling.ToolCallbacksRejectedAsWritten | src/handlers/sampling.ts:38-51 | the code's table rejects `configure_interview` and `summarize_cv` even when the model answers; the intended table runs the matching callback and returns the model's result when it succeeds |
| Resources.MatchBlockUri | src/handlers/resource-handlers.ts:75 | a URI matches only as `resource:///block/` followed by a non-empty id without line terminators, and the captured id is that rest |
| Resources.MatchBlockUriRoundTrip | src/handlers/resource-handlers.ts:75 | every such id is captured back from the URI built from it |
| Resources.List | src/handlers/resource-handlers.ts:55-69 | the listing always holds exactly one text resource: the default agent at `resource:///block/default` |
| Resources.Read | src/handlers/resource-handlers.ts:71-104 | a missing URI is a TypeError; a malformed one fails with the URI-format error; a success has exactly one text item whose URI is the input, carrying the agent's JSON, tagged "agent" |
| Resources.ReadResolvesOnlyDefault | src/handlers/resource-handlers.ts:75-88 | a read succeeds exactly for `resource:///block/default`; any other well-formed URI fails with "Resource not found" |
| Resources.ListedResolves | src/handlers/resource-handlers.ts:55-104 | every URI the listing returns can be read |
| Tools.Route | src/handlers/tool-handlers.ts:27-229 | dispatch keeps the tool name: the routed tool's name is the requested one |
| Tools.RouteRoundTrip | src/handlers/tool-handlers.ts:27-229 | each known tool's name routes back to that tool |
| Tools.ListTools | src/constants/tools.ts:12-54 | two tools are listed, `configure_interview` and `summarize_cv`, both routable; the first requires cv, description and title outside its schema, and the second requires cv inside it |
| Tools.Wrap | src/handlers/tool-handlers.ts:92 | a caught failure is rethrown as "Tool call failed: " followed by the caught value's string form |
| Tools.WrapOfFailed | src/handlers/tool-handlers.ts:53-93 | a failure raised inside the interview branch reaches the caller with the tool-call prefix twice, as "Tool call failed: Error: Tool call failed: <reason>" |
| Tools.FirstText | src/handlers/tool-handlers.ts:40 | the first content text is found exactly when the first item exists and its text is non-empty, and is then that text |
| Tools.PromptAndSample | src/handlers/tool-handlers.ts:45-80 | a failed prompt lookup passes through unchanged and a falsy schema fails with "No response schema found", both before any event; with a schema, the events are those of dispatching the request built from the prompt, arguments, temperature and callback, a dispatch failure passes through unchanged, and success answers the given acknowledgement |
| Tools.ConfigureInterviewBody | src/handlers/tool-handlers.ts:32-89 | a read failure passes through unchanged and a missing first text fails with "Invalid CV resource format", both before any event; otherwise the branch is the shared prompt-and-sample stage on the CV text; success answers exactly the fixed acknowledgement, with no timestamp |
| Tools.SummarizeCvBranch | src/handlers/tool-handlers.ts:99-139 | a failed prompt lookup reaches the caller unchanged with nothing emitted; with a schema, its events are those of the dispatch and a failed dispatch's error reaches the caller unchanged; success answers exactly the fixed acknowledgement, with no timestamp |
| Tools.InitiateInterviewBody | src/handlers/tool-handlers.ts:141-165 | a successful initiation answers with text starting "Initializing interview with data:\n" |
| Tools.Listing | src/handlers/tool-handlers.ts:172-198 | a listing answer carries the clock's timestamp |
| Tools.Call | src/handlers/tool-handlers.ts:25-235 | an unknown name fails with "Unknown tool: <name>" and does nothing; a missing arguments object makes the three argument-reading tools fail with the destructuring `TypeError`, unwrapped; every failure of the `configure_interview` body is rethrown prefixed "Tool call failed: " with the body's events kept; `summarize_cv` is its branch unchanged; initiation emits no events; the two listings answer their listing and emit nothing |
| Tools.InterviewNeedsReadableCv | src/handlers/tool-handlers.ts:33-42 | with arguments given, any CV URI other than `resource:///block/default` fails with the read error, wrapped, before anything is emitted; so sampling happens only for that URI |
| Tools.InterviewSamplingRequest | src/handlers/tool-handlers.ts:58-80 | the interview sampling request carries maxTokens 100000, temperature 0.7, callback `configure_interview`, the CV text read from the resource and notes defaulted to "" |
| Tools.SummarySamplingRequest | src/handlers/tool-handlers.ts:112-129 | the CV summary sampling request carries maxTokens 100000, temperature 0.5, callback `summarize_cv` and the single argument `cv` from the tool call |
| Tools.SendEventsFromRequest | src/handlers/sampling.ts:16 | the only model call a sampling request records is the request itself |
| Tools.MissingSchemaAborts | src/handlers/tool-handlers.ts:107-110 | with arguments given, a `summarize_cv` prompt without a response schema fails, unwrapped, before any sampling request |
| Tools.MissingSchemaAbortsInterview | src/handlers/tool-handlers.ts:53-56 | a `configure_interview` prompt without a response schema fails, wrapped, before any sampling request |
| Tools.InitiateInterviewResult | src/handlers/tool-handlers.ts:141-170 | `initiate_interview` succeeds exactly for the default URI, answering the prefix followed by the agent's JSON; with arguments given, any other URI rethrows the read error, wrapped |
| Tools.ListingsIgnoreTags | src/handlers/tool-handlers.ts:172-226 | the two listing tools filter on different tags yet answer the same text, because the listing ignores its request |
| Tools.SamplingToolsFailAsWritten | src/handlers/tool-handlers.ts:58-139 | with the code's callback table, `configure_interview` and `summarize_cv` fail on every path, including when the model answers |
| Tools.SummaryAcknowledgedWhenIntended | src/handlers/tool-handlers.ts:112-138 | with the intended table, a well-formed model answer makes `summarize_cv` acknowledge, store exactly one block and signal the list change |

## Left out

- The request validator (`src/utils/validation.ts`) is not part of this model. It is the `validate` collaborator, which may reject any request.
- The four e-mail callback handlers are imported by `src/handlers/sampling.ts` but not defined in `src/handlers/callbacks.ts`. They are the `emailHandler` collaborator.
- Network and SDK calls are collaborators or events, and notifications are assumed to be delivered:
  - `server.createMessage`;
  - `createBlock` on the backend;
  - `fetch`;
  - the Gmail API;
  - `server.notification`;
  - `sendResourceListChanged`.
- `CONFIGURE_INTERVIEW_PROMPT` and `SUMMARIZE_CV_PROMPT` (imported from src/constants/sampling-prompts.ts) and `sendJsonResultNotification` (imported from src/handlers/notifications.ts) are not exported by src/constants/sampling-prompts.ts or src/handlers/notifications.ts as they stand (both export other names only), so their definitions are not part of this model. The prompts stand behind `PromptId` and the `getPrompt`/`inject` collaborators; the notification is the `JsonResultNotice` event.
- Some collaborators are not part of this model. The prompt lookup (`handleGetPrompt`) and `injectVariables` are collaborators. `sendJsonResultNotification` is an event.
- Prompt texts, instructions and response schemas are static data. The prompts are the `PromptId` values.
- `JSON.parse` is a collaborator that yields a JSON value or a thrown value. JSON numbers are integers; floating point is not modelled.
- `Tools.PrettyList`: the `JSON.stringify(_, null, 2)` layout of the listing does not escape special characters. The listed strings need none.
- The agent resource's `JSON.stringify` text is a fixed string constant, `Resources.AgentJson`.
- `Buffer` base64 and base64url encoding are left out. Attachment content is taken as base64 text already, and the raw message is the text before encoding.
- `Date.now()` is a parameter, both for the MIME boundary stamp and for the listing timestamp. `new Date(...)` for message dates is left out.
- `URLSearchParams` percent-encoding is left out. `Storage.QueryParams` gives the parameter list; the query string joins it without escaping.
- `parseEmailAddress` and the `from`, `to` and `date` fields of message metadata are left out, because the regular expression has no stated intent.
- The `&#39;`/`&quot;` decoding of snippets is modelled, but only its no-entity case is proved.
- Tool arguments are strings or absent, and the arguments object is present or absent. Non-string argument values, and an arguments object that is `null` (whose destructuring error reads "as it is null"), are not modelled.
- OAuth, Google client initialisation and the label-loading promise are left out, as are the remaining Gmail API wrappers (listing, search, labels, drafts). They are I/O with no logic of their own.
- Server bootstrap and configuration are left out: `src/index.ts` and `server-config.ts`.
- The other `SystemPromptService` endpoints are left out. They are thin `request` calls with fixed paths.
- The JSON-result notification in `listBlocks` that logs the full URL is left out: it only reports progress and does not affect the request.
- Fractional, infinite or NaN `page` and `limit` values are left out: they are integers here, so `Storage.QueryParams` does not model how `toString` renders a fraction, nor that NaN is falsy and omitted. `Text.Decimal` is `toString` only below 10^21 in magnitude; from there on JavaScript switches to exponent form (`1e+21`), which is not modelled.
- Console logging is left out.

## Findings

| source | as written | input that shows it | evidently intended | confidence | as-written member | corrected member |
|---|---|---|---|---|---|---|
| src/handlers/sampling.ts:39-49 | The sampling dispatcher's callback switch knows only `send_email`, `reply_email`, `reply_draft` and `edit_draft`, and throws for any other name. Yet `configure_interview` and `summarize_cv` send their sampling requests with callbacks `configure_interview` (src/handlers/tool-handlers.ts:75) and `summarize_cv` (src/handlers/tool-handlers.ts:124). | A `summarize_cv` call with a CV text, a prompt that has a response schema, and a model answer that is a valid CV summary. The call fails with "Unknown callback type: summarize_cv", and no block is stored. | Route the two callback names to `handleConfigureInterviewCallback` and `handleSummarizeCVCallback`. Then a well-formed answer is stored and the tool acknowledges. | not executed; high | Tools.SamplingToolsFailAsWritten | Tools.SummaryAcknowledgedWhenIntended |
