/**
 The shapes the handlers exchange with the MCP server and with their
 collaborators, the event log that stands for notifications and outgoing
 calls, and the environment of collaborators whose code is not part of this
 model.
 */
module Protocol {
  import opened Js
  import Text
  import Storage

  datatype Role = User | Assistant

  /** A message content: text, or any other kind (image, audio) by its type name. */
  datatype Content = TextContent(text: string) | OtherContent(kind: string)

  datatype Message = Message(role: Role, content: Content)

  /** `params._meta?.callback` of a sampling request. */
  datatype CallbackField = NoCallback | CallbackText(name: string) | CallbackNonString

  /** The `params` of a `sampling/createMessage` request. */
  datatype SamplingParams = SamplingParams(
    messages: seq<Message>,
    maxTokens: nat,
    temperature: real,
    callback: CallbackField,
    responseSchema: Json,
    arguments: map<string, Option<string>>)

  /** What `server.createMessage` resolves to. */
  datatype SamplingResult = SamplingResult(role: Role, content: Content, model: string)

  /** The record a callback stores as a block; missing properties are `None`. */
  datatype BlockData = BlockData(
    content: string,
    prefix: Option<Json>,
    title: Option<Json>,
    description: Option<Json>,
    tag: Option<Json>)

  /** The prompts the tool handlers fetch and fill in. */
  datatype PromptId = ConfigureInterviewPrompt | SummarizeCvPrompt

  /** Everything the handlers cause outside themselves, in order. */
  datatype Event =
    | ModelInvoked(params: SamplingParams)
    | EmailHandlerInvoked(callback: string)
    | JsonResultNotice(block: BlockData)
    | CreateBlockCall(block: BlockData)
    | ResourceListChanged
    | OperationNotice(operation: string, message: string)

  /** The text `sendOperationNotification` sends for an operation notice. */
  function NoticeText(e: Event): (r: string)
    requires e.OperationNotice?
    ensures Text.StartsWith(r, "Operation " + e.operation + ": ")
    ensures |e.message| <= |r| && r[|r| - |e.message|..] == e.message
    ensures |r| == |"Operation " + e.operation + ": "| + |e.message|
  {
    var head := "Operation " + e.operation + ": ";
    var r := head + e.message;
    assert r[..|head|] == head;
    r
  }

  /** An outcome together with the events emitted on the way to it. */
  datatype Run<T> = Run(outcome: Result<T>, events: seq<Event>)

  /**
   The collaborators: `validateRequest` (`None` when it accepts),
   `server.createMessage`, the four e-mail callback handlers (by callback
   name), `JSON.parse`, the storage client's `createBlock` (`None` when it
   resolves), `handleGetPrompt` (the prompt's `_meta?.responseSchema`),
   `injectVariables` over a prompt's messages, and the storage client's
   singleton slot.
   */
  datatype Env = Env(
    validate: SamplingParams -> Option<Thrown>,
    createMessage: SamplingParams -> Result<SamplingResult>,
    emailHandler: (string, SamplingResult) -> Result<string>,
    parse: string -> Result<Json>,
    createBlock: BlockData -> Option<Thrown>,
    getPrompt: (PromptId, map<string, Option<string>>) -> Result<Option<Json>>,
    inject: (PromptId, map<string, Option<string>>) -> seq<Message>,
    service: Storage.Slot)

  /** How many times the events record a block creation. */
  function CreateCalls(events: seq<Event>): (n: nat)
    ensures n <= |events|
    ensures n == 0 <==> forall i :: 0 <= i < |events| ==> !events[i].CreateBlockCall?
  {
    if |events| == 0 then 0
    else (if events[0].CreateBlockCall? then 1 else 0) + CreateCalls(events[1..])
  }
}
