/**
 * The shared enumerations and record shapes of the workflow platform. Each
 * enumeration is stored as its lower-case string; `Name` gives that string and
 * `Parse...` reads it back, failing on anything outside the enumeration.
 */
module WorkflowTypes {
  import opened Wrappers
  import opened JsValue

  datatype TriggerType = Webhook | Schedule | Manual
  {
    function Name(): string {
      match this
      case Webhook => "webhook"
      case Schedule => "schedule"
      case Manual => "manual"
    }
  }

  const TriggerTypeNames: set<string> := {"webhook", "schedule", "manual"}

  function ParseTriggerType(s: string): (r: Option<TriggerType>)
    ensures r.Some? <==> s in TriggerTypeNames
    ensures forall t: TriggerType :: t.Name() == s <==> r == Some(t)
  {
    if s == "webhook" then Some(Webhook)
    else if s == "schedule" then Some(Schedule)
    else if s == "manual" then Some(Manual)
    else None
  }

  datatype ConditionOperator = Contains | EqualsOp | MatchesIntent | GreaterThan | LessThan
  {
    function Name(): string {
      match this
      case Contains => "contains"
      case EqualsOp => "equals"
      case MatchesIntent => "matches_intent"
      case GreaterThan => "greater_than"
      case LessThan => "less_than"
    }
  }

  const ConditionOperatorNames: set<string> :=
    {"contains", "equals", "matches_intent", "greater_than", "less_than"}

  function ParseConditionOperator(s: string): (r: Option<ConditionOperator>)
    ensures r.Some? <==> s in ConditionOperatorNames
    ensures forall op: ConditionOperator :: op.Name() == s <==> r == Some(op)
  {
    if s == "contains" then Some(Contains)
    else if s == "equals" then Some(EqualsOp)
    else if s == "matches_intent" then Some(MatchesIntent)
    else if s == "greater_than" then Some(GreaterThan)
    else if s == "less_than" then Some(LessThan)
    else None
  }

  datatype ActionType = Email | WebhookAction | Notification | Log
  {
    function Name(): string {
      match this
      case Email => "email"
      case WebhookAction => "webhook"
      case Notification => "notification"
      case Log => "log"
    }
  }

  const ActionTypeNames: set<string> := {"email", "webhook", "notification", "log"}

  function ParseActionType(s: string): (r: Option<ActionType>)
    ensures r.Some? <==> s in ActionTypeNames
    ensures forall a: ActionType :: a.Name() == s <==> r == Some(a)
  {
    if s == "email" then Some(Email)
    else if s == "webhook" then Some(WebhookAction)
    else if s == "notification" then Some(Notification)
    else if s == "log" then Some(Log)
    else None
  }

  datatype WorkflowStatus = Draft | Active | Paused | Archived
  {
    function Name(): string {
      match this
      case Draft => "draft"
      case Active => "active"
      case Paused => "paused"
      case Archived => "archived"
    }
  }

  const WorkflowStatusNames: set<string> := {"draft", "active", "paused", "archived"}

  function ParseWorkflowStatus(s: string): (r: Option<WorkflowStatus>)
    ensures r.Some? <==> s in WorkflowStatusNames
    ensures forall w: WorkflowStatus :: w.Name() == s <==> r == Some(w)
  {
    if s == "draft" then Some(Draft)
    else if s == "active" then Some(Active)
    else if s == "paused" then Some(Paused)
    else if s == "archived" then Some(Archived)
    else None
  }

  datatype ExecutionStatus = Running | Completed | Failed | Cancelled
  {
    function Name(): string {
      match this
      case Running => "running"
      case Completed => "completed"
      case Failed => "failed"
      case Cancelled => "cancelled"
    }
  }

  const ExecutionStatusNames: set<string> := {"running", "completed", "failed", "cancelled"}

  function ParseExecutionStatus(s: string): (r: Option<ExecutionStatus>)
    ensures r.Some? <==> s in ExecutionStatusNames
    ensures forall x: ExecutionStatus :: x.Name() == s <==> r == Some(x)
  {
    if s == "running" then Some(Running)
    else if s == "completed" then Some(Completed)
    else if s == "failed" then Some(Failed)
    else if s == "cancelled" then Some(Cancelled)
    else None
  }

  datatype StepStatus = StepSuccess | StepFailed | StepSkipped
  {
    function Name(): string {
      match this
      case StepSuccess => "success"
      case StepFailed => "failed"
      case StepSkipped => "skipped"
    }
  }

  const StepStatusNames: set<string> := {"success", "failed", "skipped"}

  function ParseStepStatus(s: string): (r: Option<StepStatus>)
    ensures r.Some? <==> s in StepStatusNames
    ensures forall x: StepStatus :: x.Name() == s <==> r == Some(x)
  {
    if s == "success" then Some(StepSuccess)
    else if s == "failed" then Some(StepFailed)
    else if s == "skipped" then Some(StepSkipped)
    else None
  }

  datatype StepType = ConditionCheck | ActionExecute | AiAnalysis
  {
    function Name(): string {
      match this
      case ConditionCheck => "condition_check"
      case ActionExecute => "action_execute"
      case AiAnalysis => "ai_analysis"
    }
  }

  const StepTypeNames: set<string> := {"condition_check", "action_execute", "ai_analysis"}

  function ParseStepType(s: string): (r: Option<StepType>)
    ensures r.Some? <==> s in StepTypeNames
    ensures forall x: StepType :: x.Name() == s <==> r == Some(x)
  {
    if s == "condition_check" then Some(ConditionCheck)
    else if s == "action_execute" then Some(ActionExecute)
    else if s == "ai_analysis" then Some(AiAnalysis)
    else None
  }

  datatype UserRole = Owner | Admin | Member | Viewer
  {
    function Name(): string {
      match this
      case Owner => "owner"
      case Admin => "admin"
      case Member => "member"
      case Viewer => "viewer"
    }
  }

  const UserRoleNames: set<string> := {"owner", "admin", "member", "viewer"}

  function ParseUserRole(s: string): (r: Option<UserRole>)
    ensures r.Some? <==> s in UserRoleNames
    ensures forall x: UserRole :: x.Name() == s <==> r == Some(x)
  {
    if s == "owner" then Some(Owner)
    else if s == "admin" then Some(Admin)
    else if s == "member" then Some(Member)
    else if s == "viewer" then Some(Viewer)
    else None
  }

  datatype OrganizationPlan = Free | Pro | Enterprise
  {
    function Name(): string {
      match this
      case Free => "free"
      case Pro => "pro"
      case Enterprise => "enterprise"
    }
  }

  /** The result of intent classification: intent, confidence and reasoning are
      always present, keywords and urgency score may be missing. */
  datatype AIMetadata = AIMetadata(
    intent: string,
    confidence: real,
    reasoning: string,
    keywords: Option<seq<string>>,
    urgencyScore: Option<real>)

  /** Reads an `AIMetadata` out of a JSON object: the three required members must
      be present with the right types, and an optional member, when present, must
      have its declared type. */
  function ReadAIMetadata(v: Value): (r: Option<AIMetadata>)
    ensures r.Some? ==>
              v.Obj? && Get(v, "intent") == Str(r.value.intent)
              && Get(v, "confidence") == Num(r.value.confidence) && Get(v, "reasoning") == Str(r.value.reasoning)
    ensures r.Some? ==> (r.value.keywords.None? <==> Get(v, "keywords").Absent?)
    ensures r.Some? ==> (r.value.urgencyScore.None? <==> Get(v, "urgencyScore").Absent?)
    ensures (v.Obj? && Get(v, "intent").Str? && Get(v, "confidence").Num? && Get(v, "reasoning").Str?
             && Get(v, "keywords").Absent? && Get(v, "urgencyScore").Absent?) ==> r.Some?
  {
    if !v.Obj? then None
    else
      match (Get(v, "intent"), Get(v, "confidence"), Get(v, "reasoning"))
      case (Str(i), Num(c), Str(why)) =>
        var kw := Get(v, "keywords");
        var urg := Get(v, "urgencyScore");
        var keywords :=
          if kw.Absent? then Some(None)
          else if kw.Arr? && forall k :: k in kw.items ==> k.Str? then Some(Some(seq(|kw.items|, j requires 0 <= j < |kw.items| => kw.items[j].s)))
          else None;
        var urgency := if urg.Absent? then Some(None) else if urg.Num? then Some(Some(urg.n)) else None;
        if keywords.None? || urgency.None? then None
        else Some(AIMetadata(i, c, why, keywords.value, urgency.value))
      case _ => None
  }

  /** The metadata as a JSON object (the shape stored on an `ai_analysis` step). */
  function AIMetadataToValue(m: AIMetadata): (v: Value)
    ensures v.Obj?
  {
    var base := map["intent" := Str(m.intent), "confidence" := Num(m.confidence), "reasoning" := Str(m.reasoning)];
    var withKeywords :=
      if m.keywords.Some? then base["keywords" := Arr(StrValues(m.keywords.value))]
      else base;
    var withUrgency := if m.urgencyScore.Some? then withKeywords["urgencyScore" := Num(m.urgencyScore.value)] else withKeywords;
    Obj(withUrgency)
  }

  function StrValues(ss: seq<string>): (vs: seq<Value>)
    ensures |vs| == |ss| && forall j :: 0 <= j < |ss| ==> vs[j] == Str(ss[j])
  {
    seq(|ss|, j requires 0 <= j < |ss| => Str(ss[j]))
  }

  /** Storing metadata as JSON and reading it back loses nothing. */
  lemma ReadStoredAIMetadata(m: AIMetadata)
    ensures ReadAIMetadata(AIMetadataToValue(m)) == Some(m)
  {
    var v := AIMetadataToValue(m);
    assert Get(v, "intent") == Str(m.intent);
    assert Get(v, "confidence") == Num(m.confidence);
    assert Get(v, "reasoning") == Str(m.reasoning);
    if m.keywords.Some? {
      var items := StrValues(m.keywords.value);
      assert Get(v, "keywords") == Arr(items);
      assert forall k :: k in items ==> k.Str?;
      assert seq(|items|, j requires 0 <= j < |items| => items[j].s) == m.keywords.value;
    } else {
      assert Get(v, "keywords").Absent?;
    }
  }
}
