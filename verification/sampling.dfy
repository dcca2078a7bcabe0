/**
 The sampling dispatcher: validate the request, ask the model, route the
 result through the callback named in `_meta.callback`, and return the
 model's result; failures are normalised so that callers always see an
 `Error`.

 `Registry` selects the callback table. `AsWritten` is the switch of the
 source, which knows only the four e-mail callbacks; `Intended` also routes
 the two callbacks the tool handlers ask for to the handlers that exist for
 them.
 */
module Sampling {
  import opened Js
  import Text
  import opened Protocol
  import Callbacks

  datatype Registry = AsWritten | Intended

  /** The callback names of the source's switch, each with its own imported handler. */
  const EmailCallbacks: seq<string> := ["send_email", "reply_email", "reply_draft", "edit_draft"]

  const UnknownCallbackPrefix: string := "Unknown callback type: "
  const SamplingFailurePrefix: string := "Failed to process sampling request: "

  /** The callback names a registry routes to a handler. */
  predicate Routed(name: string, registry: Registry)
  {
    name in EmailCallbacks || (registry == Intended && name in ["configure_interview", "summarize_cv"])
  }

  /** `handleCallback`: dispatch on the exact callback name. */
  function HandleCallback(name: string, result: SamplingResult, env: Env, registry: Registry): (r: Run<string>)
    ensures name in EmailCallbacks ==> r == Run(env.emailHandler(name, result), [EmailHandlerInvoked(name)])
    ensures !Routed(name, registry) ==> r == Run(Err(Fail(UnknownCallbackPrefix + name)), [])
    ensures registry == Intended && name == "configure_interview" ==> r == Callbacks.ConfigureInterview(result, env)
    ensures registry == Intended && name == "summarize_cv" ==> r == Callbacks.SummarizeCv(result, env)
  {
    if name in EmailCallbacks then Run(env.emailHandler(name, result), [EmailHandlerInvoked(name)])
    else if registry == Intended && name == "configure_interview" then Callbacks.ConfigureInterview(result, env)
    else if registry == Intended && name == "summarize_cv" then Callbacks.SummarizeCv(result, env)
    else Run(Err(Fail(UnknownCallbackPrefix + name)), [])
  }

  /** The catch block: an `Error` passes unchanged, anything else is wrapped in a fixed message. */
  function Normalize(t: Thrown): (r: Thrown)
    ensures r.ErrorObj?
    ensures t.ErrorObj? ==> r == t
    ensures t.NonError? && t.truthy ==> r == Fail(SamplingFailurePrefix + t.shown)
    ensures t.NonError? && !t.truthy ==> r == Fail(SamplingFailurePrefix + "Unknown error")
  {
    match t
    case ErrorObj(_, _) => t
    case NonError(truthy, shown) => Fail(SamplingFailurePrefix + (if truthy then shown else "Unknown error"))
  }

  /** Normalising twice is normalising once. */
  lemma NormalizeIdempotent(t: Thrown)
    ensures Normalize(Normalize(t)) == Normalize(t)
  {
  }

  /** Whether the request names a callback to run: a non-empty string. */
  predicate HasCallback(p: SamplingParams)
  {
    p.callback.CallbackText? && p.callback.name != ""
  }

  /** `sendSamplingRequest`. */
  function Send(p: SamplingParams, env: Env, registry: Registry): (r: Run<SamplingResult>)
    ensures env.validate(p).Some? ==> r == Run(Err(Normalize(env.validate(p).value)), [])
    ensures env.validate(p).None? ==> |r.events| >= 1 && r.events[0] == ModelInvoked(p)
    ensures r.outcome.Ok? ==> env.createMessage(p) == Ok(r.outcome.value)
    ensures r.outcome.Err? ==> r.outcome.thrown.ErrorObj?
  {
    match env.validate(p)
    case Some(t) => Run(Err(Normalize(t)), [])
    case None =>
      var invoked := [ModelInvoked(p)];
      match env.createMessage(p)
      case Err(t) => Run(Err(Normalize(t)), invoked)
      case Ok(result) =>
        if HasCallback(p) then
          var h := HandleCallback(p.callback.name, result, env, registry);
          match h.outcome
          case Ok(_) => Run(Ok(result), invoked + h.events)
          case Err(t) => Run(Err(Normalize(t)), invoked + h.events)
        else Run(Ok(result), invoked)
  }

  /** A request the validator rejects never reaches the model. */
  lemma RejectedNeverSampled(p: SamplingParams, env: Env, registry: Registry)
    requires env.validate(p).Some?
    ensures forall e :: e in Send(p, env, registry).events ==> !e.ModelInvoked?
    ensures Send(p, env, registry).outcome.Err?
  {
  }

  /**
   Without a callback (missing, not a string, or empty) the model's result is
   returned as it is and no handler runs.
   */
  lemma NoCallbackPassesThrough(p: SamplingParams, env: Env, registry: Registry)
    requires env.validate(p).None? && env.createMessage(p).Ok?
    requires !HasCallback(p)
    ensures Send(p, env, registry) == Run(env.createMessage(p), [ModelInvoked(p)])
  {
  }

  /**
   Each e-mail callback name runs exactly its own handler, once; whatever that
   handler returns, a success hands back the model's result, and a failure is
   the handler's error, normalised.
   */
  lemma EmailCallbackRouted(p: SamplingParams, env: Env, registry: Registry)
    requires env.validate(p).None? && env.createMessage(p).Ok?
    requires p.callback.CallbackText? && p.callback.name in EmailCallbacks
    ensures var r := Send(p, env, registry);
      var h := env.emailHandler(p.callback.name, env.createMessage(p).value);
      && r.events == [ModelInvoked(p), EmailHandlerInvoked(p.callback.name)]
      && (h.Ok? ==> r.outcome == env.createMessage(p))
      && (h.Err? ==> r.outcome == Err(Normalize(h.thrown)))
  {
  }

  /** Any callback name outside the table fails, naming it, and the model's result is lost. */
  lemma UnknownCallbackFails(p: SamplingParams, env: Env, registry: Registry)
    requires env.validate(p).None? && env.createMessage(p).Ok?
    requires HasCallback(p) && !Routed(p.callback.name, registry)
    ensures Send(p, env, registry) == Run(Err(Fail(UnknownCallbackPrefix + p.callback.name)), [ModelInvoked(p)])
  {
  }

  /** A failure of the model call reaches the caller normalised; no callback runs. */
  lemma ModelFailurePropagates(p: SamplingParams, env: Env, registry: Registry)
    requires env.validate(p).None? && env.createMessage(p).Err?
    ensures Send(p, env, registry) == Run(Err(Normalize(env.createMessage(p).thrown)), [ModelInvoked(p)])
  {
  }

  /**
   The callback table of the source rejects the two callback names the tool
   handlers attach, even when the model answers; the intended table runs the
   matching callback instead.
   */
  lemma ToolCallbacksRejectedAsWritten(p: SamplingParams, env: Env)
    requires env.validate(p).None? && env.createMessage(p).Ok?
    requires p.callback == CallbackText("configure_interview") || p.callback == CallbackText("summarize_cv")
    ensures Send(p, env, AsWritten).outcome == Err(Fail(UnknownCallbackPrefix + p.callback.name))
    ensures var h := if p.callback.name == "configure_interview"
        then Callbacks.ConfigureInterview(env.createMessage(p).value, env)
        else Callbacks.SummarizeCv(env.createMessage(p).value, env);
      Send(p, env, Intended) == Run(
        if h.outcome.Ok? then env.createMessage(p) else Err(Normalize(h.outcome.thrown)),
        [ModelInvoked(p)] + h.events)
  {
  }
}
