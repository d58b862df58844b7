/**
 * The stored workflow record (the `Workflow` collection): its trigger, its
 * condition and action sub-documents, and the defaults, enumerations and
 * ranges the schema enforces when a document is cast into a record.
 */
module WorkflowModel {
  import opened Wrappers
  import opened JsValue
  import opened WorkflowTypes

  datatype Trigger = Trigger(kind: TriggerType, config: Value)

  datatype Condition = Condition(
    field: string,
    operator: ConditionOperator,
    value: Value,
    aiIntent: Option<string>,
    confidence: Option<real>)

  datatype Action = Action(kind: ActionType, config: Value, order: real)

  datatype Workflow = Workflow(
    id: string,
    organizationId: string,
    name: string,
    description: Option<string>,
    createdBy: string,
    naturalLanguage: Option<string>,
    trigger: Trigger,
    conditions: seq<Condition>,
    actions: seq<Action>,
    aiGenerated: bool,
    aiConfidence: Option<real>,
    aiExplanation: Option<string>,
    approvedBy: Option<string>,
    status: WorkflowStatus)

  /** Why a document is refused, with the path at fault. */
  datatype SchemaError =
    | Required(path: string)
    | NotInEnum(path: string)
    | OutOfRange(path: string)
    | CastError(path: string)
    | TooShort(path: string)

  predicate UnitInterval(x: real) { 0.0 <= x <= 1.0 }

  /** A value that satisfies `required` on a Mixed path. */
  predicate Present(v: Value) { !(v.Absent? || v.Null?) }

  predicate ConditionValid(c: Condition) {
    c.field != "" && Present(c.value) && (c.confidence.Some? ==> UnitInterval(c.confidence.value))
  }

  predicate ActionValid(a: Action) { Present(a.config) }

  /** Everything the schema guarantees about a stored workflow. */
  predicate WellFormed(w: Workflow) {
    && w.id != "" && w.organizationId != "" && w.createdBy != ""
    && w.name != "" && Trimmed(w.name)
    && (w.description.Some? ==> Trimmed(w.description.value))
    && Present(w.trigger.config)
    && (forall c :: c in w.conditions ==> ConditionValid(c))
    && (forall a :: a in w.actions ==> ActionValid(a))
    && (w.aiConfidence.Some? ==> UnitInterval(w.aiConfidence.value))
    && (w.approvedBy.Some? ==> w.approvedBy.value != "")
  }

  // ---------------------------------------------------------------------------
  // Casting single paths
  // ---------------------------------------------------------------------------

  /** The `String` cast: numbers and booleans are converted, arrays and objects refused. */
  function CastString(v: Value, path: string): (r: Result<string, SchemaError>)
    requires Present(v)
    ensures v.Str? ==> r == Success(v.s)
    ensures v.Arr? || v.Obj? ==> r == Failure(CastError(path))
  {
    match v
    case Str(s) => Success(s)
    case Num(n) => Success(NumToStr(n))
    case Bool(b) => Success(if b then "true" else "false")
    case _ => Failure(CastError(path))
  }

  /** The string stored for a cast string: trimmed when the path has `trim`. */
  function Cleaned(s: string, trim: bool): string {
    if trim then Trim(s) else s
  }

  /** A required `String` path: missing, `null` and the empty string all fail
      `required`; the `trim` option applies before that check. */
  function RequiredString(doc: Value, path: string, trim: bool): (r: Result<string, SchemaError>)
    ensures r.Success? ==> r.value != "" && (trim ==> Trimmed(r.value))
    ensures !Present(Get(doc, path)) ==> r == Failure(Required(path))
    ensures Present(Get(doc, path)) && CastString(Get(doc, path), path).Failure? ==>
              r == Failure(CastString(Get(doc, path), path).error)
    ensures Present(Get(doc, path)) && CastString(Get(doc, path), path).Success? ==>
              var t := Cleaned(CastString(Get(doc, path), path).value, trim);
              r == if t == "" then Failure(Required(path)) else Success(t)
  {
    var v := Get(doc, path);
    if !Present(v) then Failure(Required(path))
    else match CastString(v, path)
      case Failure(e) => Failure(e)
      case Success(s) =>
        var t := if trim then Trim(s) else s;
        if t == "" then Failure(Required(path)) else Success(t)
  }

  /** An optional `String` path. */
  function OptionalString(doc: Value, path: string, trim: bool): (r: Result<Option<string>, SchemaError>)
    ensures !Present(Get(doc, path)) ==> r == Success(None)
    ensures r.Success? && r.value.Some? && trim ==> Trimmed(r.value.value)
    ensures Present(Get(doc, path)) && CastString(Get(doc, path), path).Failure? ==>
              r == Failure(CastString(Get(doc, path), path).error)
    ensures Present(Get(doc, path)) && CastString(Get(doc, path), path).Success? ==>
              r == Success(Some(Cleaned(CastString(Get(doc, path), path).value, trim)))
  {
    var v := Get(doc, path);
    if !Present(v) then Success(None)
    else match CastString(v, path)
      case Failure(e) => Failure(e)
      case Success(s) =>
        Success(Some(if trim then Trim(s) else s))
  }

  /** The `Number` cast: numeric strings and booleans are converted; the empty
      string counts as no value (a string of spaces is the number 0); anything
      that is not a number fails. */
  function CastNumber(v: Value, path: string): (r: Result<Option<real>, SchemaError>)
    ensures v.Num? ==> r == Success(Some(v.n))
    ensures !Present(v) ==> r == Success(None)
    ensures v.Arr? || v.Obj? ==> r == Failure(CastError(path))
    ensures v == Str("") ==> r == Success(None)
    ensures v.Str? && v.s != "" ==>
              (r.Success? <==> StrToNum(v.s).Some?) && (r.Success? ==> r.value == StrToNum(v.s))
  {
    match v
    case Absent => Success(None)
    case Null => Success(None)
    case Num(n) => Success(Some(n))
    case Bool(b) => Success(Some(if b then 1.0 else 0.0))
    case Str(s) =>
      if s == "" then Success(None)
      else (match StrToNum(s) case Some(n) => Success(Some(n)) case None => Failure(CastError(path)))
    case _ => Failure(CastError(path))
  }

  /** An optional `Number` path with `min: 0` and `max: 1`. */
  function OptionalUnitNumber(doc: Value, path: string): (r: Result<Option<real>, SchemaError>)
    ensures r.Success? && r.value.Some? ==> UnitInterval(r.value.value)
    ensures Get(doc, path).Num? ==>
              r == if UnitInterval(Get(doc, path).n) then Success(Some(Get(doc, path).n)) else Failure(OutOfRange(path))
    ensures !Present(Get(doc, path)) ==> r == Success(None)
  {
    match CastNumber(Get(doc, path), path)
    case Failure(e) => Failure(e)
    case Success(None) => Success(None)
    case Success(Some(x)) => if UnitInterval(x) then Success(Some(x)) else Failure(OutOfRange(path))
  }

  /** The `Boolean` cast with a default for a missing value. */
  function BooleanOr(doc: Value, path: string, default: bool): (r: Result<bool, SchemaError>)
    ensures !Present(Get(doc, path)) ==> r == Success(default)
    ensures Get(doc, path).Bool? ==> r == Success(Get(doc, path).b)
  {
    match Get(doc, path)
    case Absent => Success(default)
    case Null => Success(default)
    case Bool(b) => Success(b)
    case Num(n) => if n == 1.0 then Success(true) else if n == 0.0 then Success(false) else Failure(CastError(path))
    case Str(s) =>
      if s in {"true", "1", "yes"} then Success(true)
      else if s in {"false", "0", "no"} then Success(false)
      else Failure(CastError(path))
    case _ => Failure(CastError(path))
  }

  // ---------------------------------------------------------------------------
  // Sub-documents
  // ---------------------------------------------------------------------------

  /** A condition needs a field, an operator from the enumeration and a value; a
      confidence, when given, lies in [0, 1]. */
  function CastCondition(doc: Value): (r: Result<Condition, SchemaError>)
    ensures r.Success? ==> ConditionValid(r.value)
    ensures r.Success? ==> r.value.value == Get(doc, "value") && Str(r.value.operator.Name()) == Get(doc, "operator")
    ensures Get(doc, "operator").Str? && Get(doc, "operator").s !in ConditionOperatorNames ==> r.Failure?
  {
    var field := RequiredString(doc, "field", false);
    var opv := Get(doc, "operator");
    var value := Get(doc, "value");
    var intent := OptionalString(doc, "aiIntent", false);
    var confidence := OptionalUnitNumber(doc, "confidence");
    if field.Failure? then Failure(field.error)
    else if !Present(opv) then Failure(Required("operator"))
    else if !opv.Str? then Failure(NotInEnum("operator"))
    else if ParseConditionOperator(opv.s).None? then Failure(NotInEnum("operator"))
    else if !Present(value) then Failure(Required("value"))
    else if intent.Failure? then Failure(intent.error)
    else if confidence.Failure? then Failure(confidence.error)
    else Success(Condition(field.value, ParseConditionOperator(opv.s).value, value, intent.value, confidence.value))
  }

  /** An action needs a type from the enumeration, a config and a numeric order. */
  function CastAction(doc: Value): (r: Result<Action, SchemaError>)
    ensures r.Success? ==> ActionValid(r.value) && r.value.config == Get(doc, "config")
    ensures r.Success? ==> Str(r.value.kind.Name()) == Get(doc, "type")
    ensures !Present(Get(doc, "order")) ==> r.Failure?
  {
    var tv := Get(doc, "type");
    var config := Get(doc, "config");
    var order := CastNumber(Get(doc, "order"), "order");
    if !Present(tv) then Failure(Required("type"))
    else if !tv.Str? || ParseActionType(tv.s).None? then Failure(NotInEnum("type"))
    else if !Present(config) then Failure(Required("config"))
    else if order.Failure? then Failure(order.error)
    else if order.value.None? then Failure(Required("order"))
    else Success(Action(ParseActionType(tv.s).value, config, order.value.value))
  }

  /** An array of sub-documents: a missing array is empty, each element is cast in turn. */
  function CastConditions(items: seq<Value>): (r: Result<seq<Condition>, SchemaError>)
    ensures r.Success? ==> |r.value| == |items| && forall c :: c in r.value ==> ConditionValid(c)
    ensures r.Success? <==> forall i :: 0 <= i < |items| ==> CastCondition(items[i]).Success?
    ensures r.Success? ==> forall i :: 0 <= i < |items| ==> CastCondition(items[i]) == Success(r.value[i])
    ensures r.Failure? ==> exists i :: 0 <= i < |items| && CastCondition(items[i]) == Failure(r.error)
                                       && forall j :: 0 <= j < i ==> CastCondition(items[j]).Success?
  {
    if items == [] then Success([])
    else match (CastCondition(items[0]), CastConditions(items[1..]))
      case (Failure(e), _) => Failure(e)
      case (_, Failure(e)) => Failure(e)
      case (Success(c), Success(cs)) => Success([c] + cs)
  }

  function CastActions(items: seq<Value>): (r: Result<seq<Action>, SchemaError>)
    ensures r.Success? ==> |r.value| == |items| && forall a :: a in r.value ==> ActionValid(a)
    ensures r.Success? <==> forall i :: 0 <= i < |items| ==> CastAction(items[i]).Success?
    ensures r.Success? ==> forall i :: 0 <= i < |items| ==> CastAction(items[i]) == Success(r.value[i])
    ensures r.Failure? ==> exists i :: 0 <= i < |items| && CastAction(items[i]) == Failure(r.error)
                                       && forall j :: 0 <= j < i ==> CastAction(items[j]).Success?
  {
    if items == [] then Success([])
    else match (CastAction(items[0]), CastActions(items[1..]))
      case (Failure(e), _) => Failure(e)
      case (_, Failure(e)) => Failure(e)
      case (Success(a), Success(as_)) => Success([a] + as_)
  }

  /** The elements an array path is cast from. Like Mongoose's document arrays,
      a single object stands for the one-element array holding it; any other
      value that is not an array cannot become a subdocument. */
  function ArrayItems(v: Value, path: string): (r: Result<seq<Value>, SchemaError>)
    ensures v.Absent? ==> r == Success([])
    ensures v.Arr? ==> r == Success(v.items)
    ensures v.Obj? ==> r == Success([v])
    ensures r.Failure? <==> !(v.Absent? || v.Arr? || v.Obj?)
  {
    match v
    case Absent => Success([])
    case Arr(xs) => Success(xs)
    case Obj(_) => Success([v])
    case _ => Failure(CastError(path))
  }

  // ---------------------------------------------------------------------------
  // The workflow document
  // ---------------------------------------------------------------------------

  /** The plain string paths of a workflow document. */
  datatype Header = Header(
    organizationId: string, name: string, description: Option<string>, createdBy: string,
    naturalLanguage: Option<string>)

  function CastHeader(doc: Value): (r: Result<Header, SchemaError>)
    ensures r.Success? ==>
              && r.value.organizationId != "" && r.value.createdBy != ""
              && r.value.name != "" && Trimmed(r.value.name)
              && (r.value.description.Some? ==> Trimmed(r.value.description.value))
    ensures r.Success? && Get(doc, "name").Str? ==> r.value.name == Trim(Get(doc, "name").s)
    ensures r.Success? && Get(doc, "organizationId").Str? ==> r.value.organizationId == Get(doc, "organizationId").s
    ensures r.Success? && Get(doc, "createdBy").Str? ==> r.value.createdBy == Get(doc, "createdBy").s
    ensures r.Success? <==>
              && RequiredString(doc, "organizationId", false).Success? && RequiredString(doc, "name", true).Success?
              && OptionalString(doc, "description", true).Success? && RequiredString(doc, "createdBy", false).Success?
              && OptionalString(doc, "naturalLanguage", false).Success?
    ensures r.Success? ==>
              && OptionalString(doc, "description", true) == Success(r.value.description)
              && OptionalString(doc, "naturalLanguage", false) == Success(r.value.naturalLanguage)
    ensures r.Success? && Get(doc, "description").Str? ==> r.value.description == Some(Trim(Get(doc, "description").s))
    ensures r.Success? && Get(doc, "naturalLanguage").Str? ==> r.value.naturalLanguage == Some(Get(doc, "naturalLanguage").s)
    ensures r.Success? && !Present(Get(doc, "description")) ==> r.value.description == None
    ensures r.Success? && !Present(Get(doc, "naturalLanguage")) ==> r.value.naturalLanguage == None
  {
    var org := RequiredString(doc, "organizationId", false);
    var name := RequiredString(doc, "name", true);
    var description := OptionalString(doc, "description", true);
    var createdBy := RequiredString(doc, "createdBy", false);
    var nl := OptionalString(doc, "naturalLanguage", false);
    if org.Failure? then Failure(org.error)
    else if name.Failure? then Failure(name.error)
    else if description.Failure? then Failure(description.error)
    else if createdBy.Failure? then Failure(createdBy.error)
    else if nl.Failure? then Failure(nl.error)
    else Success(Header(org.value, name.value, description.value, createdBy.value, nl.value))
  }

  /** `trigger.type` must come from the enumeration and `trigger.config` is required. */
  function CastTrigger(doc: Value): (r: Result<Trigger, SchemaError>)
    ensures r.Success? ==> Present(r.value.config) && r.value.config == Get(Get(doc, "trigger"), "config")
    ensures r.Success? ==> Str(r.value.kind.Name()) == Get(Get(doc, "trigger"), "type")
  {
    var tt := Get(Get(doc, "trigger"), "type");
    var tc := Get(Get(doc, "trigger"), "config");
    if !Present(tt) then Failure(Required("trigger.type"))
    else if !tt.Str? || ParseTriggerType(tt.s).None? then Failure(NotInEnum("trigger.type"))
    else if !Present(tc) then Failure(Required("trigger.config"))
    else Success(Trigger(ParseTriggerType(tt.s).value, tc))
  }

  /** The AI-related paths and the status, with their defaults. */
  datatype Review = Review(
    aiGenerated: bool, aiConfidence: Option<real>, aiExplanation: Option<string>,
    approvedBy: Option<string>, status: WorkflowStatus)

  function CastReview(doc: Value): (r: Result<Review, SchemaError>)
    ensures r.Success? ==> (r.value.aiConfidence.Some? ==> UnitInterval(r.value.aiConfidence.value))
    ensures r.Success? ==> (r.value.approvedBy.Some? ==> r.value.approvedBy.value != "")
    ensures r.Success? && !Present(Get(doc, "status")) ==> r.value.status == Draft
    ensures r.Success? && !Present(Get(doc, "aiGenerated")) ==> !r.value.aiGenerated
    ensures Get(doc, "aiConfidence").Num? && !UnitInterval(Get(doc, "aiConfidence").n) ==> r.Failure?
    ensures Get(doc, "status").Str? && Get(doc, "status").s !in WorkflowStatusNames ==> r.Failure?
    ensures r.Success? && Get(doc, "status").Str? ==> Get(doc, "status") == Str(r.value.status.Name())
    ensures r.Success? && Get(doc, "aiGenerated").Bool? ==> r.value.aiGenerated == Get(doc, "aiGenerated").b
    ensures r.Success? && Get(doc, "aiConfidence").Num? ==> r.value.aiConfidence == Some(Get(doc, "aiConfidence").n)
    ensures r.Success? ==>
              && OptionalString(doc, "aiExplanation", false) == Success(r.value.aiExplanation)
              && OptionalString(doc, "approvedBy", false) == Success(r.value.approvedBy)
    ensures r.Success? && Get(doc, "aiExplanation").Str? ==> r.value.aiExplanation == Some(Get(doc, "aiExplanation").s)
    ensures r.Success? && Get(doc, "approvedBy").Str? ==> r.value.approvedBy == Some(Get(doc, "approvedBy").s)
    ensures r.Success? && !Present(Get(doc, "aiExplanation")) ==> r.value.aiExplanation == None
    ensures r.Success? && !Present(Get(doc, "approvedBy")) ==> r.value.approvedBy == None
    ensures Get(doc, "approvedBy") == Str("") ==> r.Failure?
  {
    var aiGenerated := BooleanOr(doc, "aiGenerated", false);
    var aiConfidence := OptionalUnitNumber(doc, "aiConfidence");
    var aiExplanation := OptionalString(doc, "aiExplanation", false);
    var approvedBy := OptionalString(doc, "approvedBy", false);
    var sv := Get(doc, "status");
    if aiGenerated.Failure? then Failure(aiGenerated.error)
    else if aiConfidence.Failure? then Failure(aiConfidence.error)
    else if aiExplanation.Failure? then Failure(aiExplanation.error)
    else if approvedBy.Failure? then Failure(approvedBy.error)
    else if approvedBy.value == Some("") then Failure(CastError("approvedBy"))
    else if Present(sv) && (!sv.Str? || ParseWorkflowStatus(sv.s).None?) then Failure(NotInEnum("status"))
    else
      var status := if Present(sv) then ParseWorkflowStatus(sv.s).value else Draft;
      Success(Review(aiGenerated.value, aiConfidence.value, aiExplanation.value, approvedBy.value, status))
  }

  function CastBody(doc: Value): (r: Result<(seq<Condition>, seq<Action>), SchemaError>)
    ensures r.Success? ==> forall c :: c in r.value.0 ==> ConditionValid(c)
    ensures r.Success? ==> forall a :: a in r.value.1 ==> ActionValid(a)
    ensures r.Success? && Get(doc, "conditions") == Arr([]) ==> r.value.0 == []
    ensures r.Success? && Get(doc, "conditions").Absent? ==> r.value.0 == []
    ensures r.Success? && Get(doc, "actions").Absent? ==> r.value.1 == []
    ensures r.Success? && Get(doc, "conditions").Arr? ==> CastConditions(Get(doc, "conditions").items) == Success(r.value.0)
    ensures r.Success? && Get(doc, "actions").Arr? ==> CastActions(Get(doc, "actions").items) == Success(r.value.1)
    ensures Get(doc, "conditions").Arr? && Get(doc, "actions").Arr? ==>
              (r.Success? <==> CastConditions(Get(doc, "conditions").items).Success?
                               && CastActions(Get(doc, "actions").items).Success?)
    ensures r.Success? && Get(doc, "conditions").Obj? ==> CastConditions([Get(doc, "conditions")]) == Success(r.value.0)
    ensures r.Success? && Get(doc, "actions").Obj? ==> CastActions([Get(doc, "actions")]) == Success(r.value.1)
    ensures !(Get(doc, "conditions").Absent? || Get(doc, "conditions").Arr? || Get(doc, "conditions").Obj?) ==> r.Failure?
    ensures !(Get(doc, "actions").Absent? || Get(doc, "actions").Arr? || Get(doc, "actions").Obj?) ==> r.Failure?
  {
    var condDocs := ArrayItems(Get(doc, "conditions"), "conditions");
    var actDocs := ArrayItems(Get(doc, "actions"), "actions");
    if condDocs.Failure? then Failure(condDocs.error)
    else if actDocs.Failure? then Failure(actDocs.error)
    else match (CastConditions(condDocs.value), CastActions(actDocs.value))
      case (Failure(e), _) => Failure(e)
      case (_, Failure(e)) => Failure(e)
      case (Success(conditions), Success(actions)) => Success((conditions, actions))
  }

  /** Casts a document into a stored workflow, applying the schema's defaults
      (status draft, `aiGenerated` false, no conditions or actions) and checks. */
  function CastWorkflow(id: string, doc: Value): (r: Result<Workflow, SchemaError>)
    requires id != ""
    ensures r.Success? ==> WellFormed(r.value) && r.value.id == id
    ensures r.Success? && !Present(Get(doc, "status")) ==> r.value.status == Draft
    ensures r.Success? && !Present(Get(doc, "aiGenerated")) ==> !r.value.aiGenerated
    ensures Get(doc, "aiConfidence").Num? && !UnitInterval(Get(doc, "aiConfidence").n) ==> r.Failure?
    ensures Get(doc, "status").Str? && Get(doc, "status").s !in WorkflowStatusNames ==> r.Failure?
    ensures r.Success? && Get(doc, "status").Str? ==> Get(doc, "status") == Str(r.value.status.Name())
    ensures r.Success? && Get(doc, "aiGenerated").Bool? ==> r.value.aiGenerated == Get(doc, "aiGenerated").b
    ensures r.Success? && Get(doc, "aiConfidence").Num? ==> r.value.aiConfidence == Some(Get(doc, "aiConfidence").n)
    ensures r.Success? && Get(doc, "name").Str? ==> r.value.name == Trim(Get(doc, "name").s)
    ensures r.Success? && Get(doc, "organizationId").Str? ==> r.value.organizationId == Get(doc, "organizationId").s
    ensures r.Success? && Get(doc, "createdBy").Str? ==> r.value.createdBy == Get(doc, "createdBy").s
    ensures r.Success? && Get(doc, "conditions") == Arr([]) ==> r.value.conditions == []
    ensures r.Success? <==>
              CastHeader(doc).Success? && CastTrigger(doc).Success? && CastBody(doc).Success? && CastReview(doc).Success?
    ensures r.Success? ==>
              && CastHeader(doc) == Success(Header(r.value.organizationId, r.value.name, r.value.description,
                                                   r.value.createdBy, r.value.naturalLanguage))
              && CastTrigger(doc) == Success(r.value.trigger)
              && CastBody(doc) == Success((r.value.conditions, r.value.actions))
              && CastReview(doc) == Success(Review(r.value.aiGenerated, r.value.aiConfidence, r.value.aiExplanation,
                                                   r.value.approvedBy, r.value.status))
  {
    match (CastHeader(doc), CastTrigger(doc), CastBody(doc), CastReview(doc))
    case (Failure(e), _, _, _) => Failure(e)
    case (_, Failure(e), _, _) => Failure(e)
    case (_, _, Failure(e), _) => Failure(e)
    case (_, _, _, Failure(e)) => Failure(e)
    case (Success(h), Success(t), Success(body), Success(rv)) =>
      Success(Workflow(id, h.organizationId, h.name, h.description, h.createdBy, h.naturalLanguage,
        t, body.0, body.1, rv.aiGenerated, rv.aiConfidence, rv.aiExplanation, rv.approvedBy, rv.status))
  }

  /** The `aiGenerated` flag of a document that gives it as a boolean is kept;
      stated on its own so that it can be applied to a document built in place. */
  lemma CastKeepsAiGenerated(id: string, doc: Value, b: bool)
    requires id != "" && Get(doc, "aiGenerated") == Bool(b)
    ensures CastWorkflow(id, doc).Success? ==> CastWorkflow(id, doc).value.aiGenerated == b
  {
  }

  /** A status given by name is kept. */
  lemma CastKeepsStatus(id: string, doc: Value, status: WorkflowStatus)
    requires id != "" && Get(doc, "status") == Str(status.Name())
    ensures CastWorkflow(id, doc).Success? ==> CastWorkflow(id, doc).value.status == status
  {
    var r := CastWorkflow(id, doc);
    if r.Success? {
      var kept := r.value.status;
      assert Str(kept.Name()) == Str(status.Name());
      match kept
      case Draft => assert status.Name() == "draft";
      case Active => assert status.Name() == "active";
      case Paused => assert status.Name() == "paused";
      case Archived => assert status.Name() == "archived";
    }
  }

  /** Changing the status and the approver (to a non-empty id) keeps a record well formed. */
  lemma ReviewKeepsWellFormed(w: Workflow, approvedBy: Option<string>, status: WorkflowStatus)
    requires WellFormed(w) && (approvedBy.Some? ==> approvedBy.value != "")
    ensures WellFormed(w.(approvedBy := approvedBy, status := status))
  {
    var v := w.(approvedBy := approvedBy, status := status);
    assert v.conditions == w.conditions && v.actions == w.actions;
  }

  // ---------------------------------------------------------------------------
  // Writing a record back as a document
  // ---------------------------------------------------------------------------

  function OptStr(o: Option<string>): Value { if o.Some? then Str(o.value) else Absent }

  function OptNum(o: Option<real>): Value { if o.Some? then Num(o.value) else Absent }

  function ConditionDoc(c: Condition): Value {
    Obj(map["field" := Str(c.field), "operator" := Str(c.operator.Name()), "value" := c.value,
            "aiIntent" := OptStr(c.aiIntent), "confidence" := OptNum(c.confidence)])
  }

  function ActionDoc(a: Action): Value {
    Obj(map["type" := Str(a.kind.Name()), "config" := a.config, "order" := Num(a.order)])
  }

  lemma CastConditionDoc(c: Condition)
    requires ConditionValid(c)
    ensures CastCondition(ConditionDoc(c)) == Success(c)
  {
    var d := ConditionDoc(c);
    assert Get(d, "operator") == Str(c.operator.Name());
    assert Get(d, "field") == Str(c.field);
    assert Get(d, "value") == c.value;
  }

  lemma CastActionDoc(a: Action)
    requires ActionValid(a)
    ensures CastAction(ActionDoc(a)) == Success(a)
  {
    var d := ActionDoc(a);
    assert Get(d, "type") == Str(a.kind.Name());
    assert Get(d, "order") == Num(a.order);
  }

  lemma {:induction false} CastConditionDocs(cs: seq<Condition>)
    requires forall c :: c in cs ==> ConditionValid(c)
    ensures CastConditions(seq(|cs|, i requires 0 <= i < |cs| => ConditionDoc(cs[i]))) == Success(cs)
  {
    var docs := seq(|cs|, i requires 0 <= i < |cs| => ConditionDoc(cs[i]));
    if cs != [] {
      CastConditionDoc(cs[0]);
      assert docs[1..] == seq(|cs[1..]|, i requires 0 <= i < |cs[1..]| => ConditionDoc(cs[1..][i]));
      CastConditionDocs(cs[1..]);
      assert [cs[0]] + cs[1..] == cs;
    }
  }

  lemma {:induction false} CastActionDocs(as_: seq<Action>)
    requires forall a :: a in as_ ==> ActionValid(a)
    ensures CastActions(seq(|as_|, i requires 0 <= i < |as_| => ActionDoc(as_[i]))) == Success(as_)
  {
    var docs := seq(|as_|, i requires 0 <= i < |as_| => ActionDoc(as_[i]));
    if as_ != [] {
      CastActionDoc(as_[0]);
      assert docs[1..] == seq(|as_[1..]|, i requires 0 <= i < |as_[1..]| => ActionDoc(as_[1..][i]));
      CastActionDocs(as_[1..]);
      assert [as_[0]] + as_[1..] == as_;
    }
  }
}
