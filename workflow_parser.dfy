/**
 * The natural-language workflow parser: the AI's reply is parsed as JSON and
 * checked by a fixed chain of guards before the service uses it; the tokens
 * the call cost are the sum of the input and output tokens.
 *
 * The AI call itself is a parameter: either the service error it raised, or
 * the reply's JSON (absent when the text is not JSON) and its token usage.
 */
module WorkflowParser {
  import opened Wrappers
  import opened JsValue
  import opened Errors

  const InvalidTrigger := "Invalid trigger in parsed workflow"
  const NoActions := "No actions defined in parsed workflow"
  const MissingIntent := "Missing intent classification in parsed workflow"
  const InvalidConfidence := "Invalid confidence score"

  /** `x < bound` with `x` coerced by `Number(...)`; NaN is never less. */
  predicate Below(x: Value, bound: real) {
    ToNum(x).Some? && ToNum(x).value < bound
  }

  /** `x > bound` likewise. */
  predicate Above(x: Value, bound: real) {
    ToNum(x).Some? && ToNum(x).value > bound
  }

  /** `workflow.trigger && workflow.trigger.type`. */
  predicate HasTrigger(p: Value) {
    Truthy(Get(p, "trigger")) && Truthy(Get(Get(p, "trigger"), "type"))
  }

  /** `Array.isArray(workflow.actions) && workflow.actions.length !== 0`. */
  predicate HasActions(p: Value) {
    Get(p, "actions").Arr? && |Get(p, "actions").items| != 0
  }

  /** `workflow.intent && workflow.confidence`: a confidence of 0 is falsy. */
  predicate HasIntent(p: Value) {
    Truthy(Get(p, "intent")) && Truthy(Get(p, "confidence"))
  }

  /** Neither `confidence < 0` nor `confidence > 1`. */
  predicate ConfidenceInRange(p: Value) {
    !Below(Get(p, "confidence"), 0.0) && !Above(Get(p, "confidence"), 1.0)
  }

  /** `validateParsedWorkflow`: None when the parsed reply is accepted, otherwise
      the message of the first guard that fails. Reading a property of `null`
      throws a `TypeError` before any guard. */
  function ValidateParsedWorkflow(p: Value): (r: Option<string>)
    ensures r.None? <==> !(p.Null? || p.Absent?) && HasTrigger(p) && HasActions(p) && HasIntent(p) && ConfidenceInRange(p)
    ensures !(p.Null? || p.Absent?) && !HasTrigger(p) ==> r == Some(InvalidTrigger)
    ensures !(p.Null? || p.Absent?) && HasTrigger(p) && !HasActions(p) ==> r == Some(NoActions)
    ensures !(p.Null? || p.Absent?) && HasTrigger(p) && HasActions(p) && !HasIntent(p) ==> r == Some(MissingIntent)
    ensures !(p.Null? || p.Absent?) && HasTrigger(p) && HasActions(p) && HasIntent(p) && !ConfidenceInRange(p)
            ==> r == Some(InvalidConfidence)
  {
    if p.Null? || p.Absent? then Some("Cannot read properties of " + ToStr(p) + " (reading 'trigger')")
    else if !HasTrigger(p) then Some(InvalidTrigger)
    else if !HasActions(p) then Some(NoActions)
    else if !HasIntent(p) then Some(MissingIntent)
    else if !ConfidenceInRange(p) then Some(InvalidConfidence)
    else None
  }

  /** A confidence of exactly 0 is refused as missing, not as out of range. */
  lemma ZeroConfidenceRejected(p: Value)
    requires Get(p, "confidence") == Num(0.0)
    ensures ValidateParsedWorkflow(p).Some?
    ensures HasTrigger(p) && HasActions(p) ==> ValidateParsedWorkflow(p) == Some(MissingIntent)
  {
  }

  /** An accepted numeric confidence lies in (0, 1]; an accepted reply has a
      trigger type and at least one action. */
  lemma AcceptedConfidence(p: Value)
    requires ValidateParsedWorkflow(p).None?
    ensures Get(p, "confidence").Num? ==> 0.0 < Get(p, "confidence").n <= 1.0
    ensures Truthy(Get(Get(p, "trigger"), "type")) && |Get(p, "actions").items| >= 1
  {
    var c := Get(p, "confidence");
    if c.Num? {
      assert ToNum(c) == Some(c.n);
    }
  }

  /** The guards run in order: a reply without a trigger is refused for its
      trigger, whatever else is wrong with it. */
  lemma FirstFailingGuardWins(p: Value, actions: Value, confidence: Value)
    requires p.Obj? && !HasTrigger(p)
    ensures ValidateParsedWorkflow(Obj(p.fields["actions" := actions]["confidence" := confidence])) == Some(InvalidTrigger)
  {
    var q := Obj(p.fields["actions" := actions]["confidence" := confidence]);
    assert Get(q, "trigger") == Get(p, "trigger");
  }

  /** What the AI call returned: its JSON (None when the text does not parse) and its token usage. */
  datatype AiReply = AiReply(json: Option<Value>, inputTokens: nat, outputTokens: nat)

  /** `{ workflow: parsed, tokensUsed }`. */
  datatype Parsed = Parsed(workflow: Value, tokensUsed: nat)

  /** `parseNaturalLanguage`: the AI call's own error passes through; a reply
      that is not JSON fails with 500; a reply the guards refuse fails with the
      guard's message; otherwise the validated reply and the tokens used. */
  function ParseNaturalLanguage(reply: Result<AiReply, Err>): (r: Result<Parsed, Err>)
    ensures reply.Failure? ==> r == Failure(reply.error)
    ensures reply.Success? && reply.value.json.None? ==> r == Failure(AppError(500, "Failed to parse AI response"))
    ensures r.Success? ==> reply.Success? && reply.value.json == Some(r.value.workflow)
    ensures r.Success? ==> ValidateParsedWorkflow(r.value.workflow).None?
    ensures r.Success? ==> r.value.tokensUsed == reply.value.inputTokens + reply.value.outputTokens
    ensures reply.Success? && reply.value.json.Some? && ValidateParsedWorkflow(reply.value.json.value).Some?
            ==> r == Failure(Thrown(ValidateParsedWorkflow(reply.value.json.value).value))
  {
    match reply
    case Failure(e) => Failure(e)
    case Success(answer) =>
      match answer.json
      case None => Failure(AppError(500, "Failed to parse AI response"))
      case Some(v) =>
        match ValidateParsedWorkflow(v)
        case Some(msg) => Failure(Thrown(msg))
        case None => Success(Parsed(v, answer.inputTokens + answer.outputTokens))
  }
}
