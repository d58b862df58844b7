/**
 * The request schemas (`registerSchema`, `workflowSchema`) and `validateRequest`.
 * A schema is checked with `abortEarly: false`: every violated rule of every
 * key is reported, in the schema's key order, as an issue carrying the path to
 * the offending value; keys a schema does not declare are reported as not
 * allowed. `validateRequest` turns the issues into `{ field, message }` pairs
 * whose field is the path joined with ".".
 */
module Validators {
  import opened Wrappers
  import opened JsValue

  // ---------------------------------------------------------------------------
  // Paths and issues
  // ---------------------------------------------------------------------------

  /** One step of a path: an object key or an array index. */
  datatype Step = Key(name: string) | Index(i: nat)

  /** The rule an issue violates (Joi's error types). */
  datatype Rule =
    | Required                  // any.required
    | NotString                 // string.base
    | EmptyString               // string.empty
    | TooShort(min: nat)        // string.min
    | TooLong(max: nat)         // string.max
    | NotEmail                  // string.email
    | NotNumber                 // number.base
    | NotInteger                // number.integer
    | Below(limit: real)        // number.min
    | Above(limit: real)        // number.max
    | NotOneOf(allowed: seq<string>)  // any.only
    | NotObject                 // object.base
    | NotArray                  // array.base
    | NotStringOrNumber         // alternatives.types
    | NotAllowed                // object.unknown

  datatype Issue = Issue(path: seq<Step>, rule: Rule)

  function StepText(s: Step): string {
    match s
    case Key(k) => k
    case Index(i) => NatToStr(i)
  }

  function StepTexts(path: seq<Step>): (r: seq<string>)
    ensures |r| == |path| && forall i :: 0 <= i < |path| ==> r[i] == StepText(path[i])
  {
    if path == [] then [] else [StepText(path[0])] + StepTexts(path[1..])
  }

  /** `detail.path.join('.')`. */
  function FieldName(path: seq<Step>): string {
    Join(StepTexts(path), ".")
  }

  /** Joi's label for a path: keys joined with ".", indices in brackets; the
      root is labelled "value". */
  function Label(path: seq<Step>): string {
    if path == [] then "value" else LabelFrom(path, 0)
  }

  function LabelFrom(path: seq<Step>, i: nat): string
    decreases |path| - i
  {
    if i >= |path| then ""
    else
      var part := match path[i]
        case Key(k) => (if i == 0 then "" else ".") + k
        case Index(n) => "[" + NatToStr(n) + "]";
      part + LabelFrom(path, i + 1)
  }

  function Quoted(items: seq<string>): string {
    Join(items, ", ")
  }

  /** Joi's default message for an issue: the quoted label, then the rule's text. */
  function Message(issue: Issue): string {
    "\"" + Label(issue.path) + "\"" + RuleText(issue.rule)
  }

  function RuleText(rule: Rule): string {
    match rule
    case Required => " is required"
    case NotString => " must be a string"
    case EmptyString => " is not allowed to be empty"
    case TooShort(n) => " length must be at least " + NatToStr(n) + " characters long"
    case TooLong(n) => " length must be less than or equal to " + NatToStr(n) + " characters long"
    case NotEmail => " must be a valid email"
    case NotNumber => " must be a number"
    case NotInteger => " must be an integer"
    case Below(n) => " must be greater than or equal to " + NumToStr(n)
    case Above(n) => " must be less than or equal to " + NumToStr(n)
    case NotOneOf(a) => " must be one of [" + Quoted(a) + "]"
    case NotObject => " must be of type object"
    case NotArray => " must be an array"
    case NotStringOrNumber => " must be one of [string, number]"
    case NotAllowed => " is not allowed"
  }

  /** For a path of keys only, the label Joi's message quotes is the field name
      `path.join('.')` the response reports beside it. */
  lemma KeyPathLabel(path: seq<Step>)
    requires path != [] && forall j :: 0 <= j < |path| ==> path[j].Key?
    ensures Label(path) == FieldName(path)
  {
    var k := path[0].name;
    var texts := StepTexts(path);
    assert texts[0] == k;
    assert Label(path) == k + LabelFrom(path, 1) by {
      assert Label(path) == LabelFrom(path, 0);
      assert "" + k == k;
    }
    if |path| > 1 {
      KeysLabelFrom(path, 1);
      assert texts[1..] == StepTexts(path[1..]);
      assert FieldName(path) == k + "." + Join(texts[1..], ".");
    } else {
      assert LabelFrom(path, 1) == "";
      assert FieldName(path) == k;
    }
  }

  lemma {:induction false} KeysLabelFrom(path: seq<Step>, i: nat)
    requires 0 < i < |path| && forall j :: 0 <= j < |path| ==> path[j].Key?
    ensures LabelFrom(path, i) == "." + FieldName(path[i..])
    decreases |path| - i
  {
    var k := path[i].name;
    var texts := StepTexts(path[i..]);
    assert texts[0] == k;
    assert LabelFrom(path, i) == "." + k + LabelFrom(path, i + 1);
    if i + 1 < |path| {
      KeysLabelFrom(path, i + 1);
      assert path[i..][1..] == path[i + 1..];
      assert texts[1..] == StepTexts(path[i + 1..]);
      assert FieldName(path[i..]) == k + "." + FieldName(path[i + 1..]);
    } else {
      assert |texts| == 1;
      assert FieldName(path[i..]) == k;
    }
  }

  // ---------------------------------------------------------------------------
  // Single values
  // ---------------------------------------------------------------------------

  /** `Joi.string().min(min).max(max)`, required or optional. The empty string
      is refused as empty before any length rule. */
  function CheckString(v: Value, path: seq<Step>, min: nat, max: Option<nat>, required: bool): seq<Issue> {
    match v
    case Absent => if required then [Issue(path, Required)] else []
    case Str(s) =>
      if s == "" then [Issue(path, EmptyString)]
      else (if |s| < min then [Issue(path, TooShort(min))] else [])
           + (if max.Some? && |s| > max.value then [Issue(path, TooLong(max.value))] else [])
    case _ => [Issue(path, NotString)]
  }

  /** A stand-in for Joi's address grammar: one "@", a non-empty local part,
      and a domain of at least two non-empty dot-separated labels, no whitespace. */
  predicate IsEmail(s: string) {
    var parts := Split(s, '@');
    && |parts| == 2 && parts[0] != ""
    && |Split(parts[1], '.')| >= 2
    && (forall seg :: seg in Split(parts[1], '.') ==> seg != "")
    && (forall i :: 0 <= i < |s| ==> !IsWhitespace(s[i]))
  }

  /** `Joi.string().email().required()`. */
  function CheckEmail(v: Value, path: seq<Step>): seq<Issue> {
    CheckString(v, path, 0, None, true)
      + (if v.Str? && v.s != "" && !IsEmail(v.s) then [Issue(path, NotEmail)] else [])
  }

  /** The number `Joi.number()` reads: a number, or a string that converts to one. */
  function NumberValue(v: Value): Option<real> {
    match v
    case Num(n) => Some(n)
    case Str(s) => if Trim(s) == "" then None else StrToNum(s)
    case _ => None
  }

  /** `Joi.number()` with an optional `integer()`, `min` and `max`, required or optional. */
  function CheckNumber(v: Value, path: seq<Step>, integer: bool, min: Option<real>, max: Option<real>,
                       required: bool): seq<Issue>
  {
    if v.Absent? then (if required then [Issue(path, Required)] else [])
    else match NumberValue(v)
      case None => [Issue(path, NotNumber)]
      case Some(n) =>
        (if integer && n.Floor as real != n then [Issue(path, NotInteger)] else [])
        + (if min.Some? && n < min.value then [Issue(path, Below(min.value))] else [])
        + (if max.Some? && n > max.value then [Issue(path, Above(max.value))] else [])
  }

  /** `Joi.string().valid(...allowed).required()`: anything else, of any type, is
      refused as not one of the allowed values; without early abort the string
      rule then also reports a value that is not a string, or the empty string. */
  function CheckOneOf(v: Value, path: seq<Step>, allowed: seq<string>): (r: seq<Issue>)
    ensures r == [] <==> v.Str? && v.s in allowed
    ensures !v.Absent? && r != [] ==> r[0] == Issue(path, NotOneOf(allowed))
  {
    if v.Absent? then [Issue(path, Required)]
    else if v.Str? && v.s in allowed then []
    else [Issue(path, NotOneOf(allowed))]
         + (if !v.Str? then [Issue(path, NotString)] else if v.s == "" then [Issue(path, EmptyString)] else [])
  }

  /** `Joi.alternatives().try(Joi.string(), Joi.number()).required()`. */
  function CheckStringOrNumber(v: Value, path: seq<Step>): seq<Issue> {
    if v.Absent? then [Issue(path, Required)]
    else if (v.Str? && v.s != "") || NumberValue(v).Some? then []
    else [Issue(path, NotStringOrNumber)]
  }

  /** `Joi.object().required()` without declared keys: any object. */
  function CheckAnyObject(v: Value, path: seq<Step>): seq<Issue> {
    if v.Absent? then [Issue(path, Required)] else if v.Obj? then [] else [Issue(path, NotObject)]
  }

  /** The keys of an object a schema does not declare, each reported as not
      allowed. Objects here are maps, which keep no insertion order, so the order
      of these reports is fixed but unspecified. */
  ghost function Unknown(v: Value, path: seq<Step>, declared: set<string>): (r: seq<Issue>)
    requires v.Obj?
    ensures forall x :: x in r <==> exists k :: k in v.fields && k !in declared && x == Issue(path + [Key(k)], NotAllowed)
  {
    UnknownOf(v.fields.Keys - declared, path)
  }

  ghost function UnknownOf(keys: set<string>, path: seq<Step>): (r: seq<Issue>)
    ensures forall x :: x in r <==> exists k :: k in keys && x == Issue(path + [Key(k)], NotAllowed)
    decreases |keys|
  {
    if keys == {} then []
    else
      var k :| k in keys;
      var rest := UnknownOf(keys - {k}, path);
      [Issue(path + [Key(k)], NotAllowed)] + rest
  }

  // ---------------------------------------------------------------------------
  // registerSchema
  // ---------------------------------------------------------------------------

  const RegisterKeys := {"email", "password", "firstName", "lastName", "organizationName"}

  ghost function CheckRegister(data: Value): seq<Issue> {
    if data.Absent? then []
    else if !data.Obj? then [Issue([], NotObject)]
    else
      CheckEmail(Get(data, "email"), [Key("email")])
      + CheckString(Get(data, "password"), [Key("password")], 8, None, true)
      + CheckString(Get(data, "firstName"), [Key("firstName")], 2, Some(50), true)
      + CheckString(Get(data, "lastName"), [Key("lastName")], 2, Some(50), true)
      + CheckString(Get(data, "organizationName"), [Key("organizationName")], 2, Some(100), true)
      + Unknown(data, [], RegisterKeys)
  }

  /** A string whose length lies in [min, max]. */
  predicate LengthIn(v: Value, min: nat, max: nat) {
    v.Str? && min <= |v.s| <= max
  }

  /** What registration accepts, stated directly: an object with exactly the
      declared keys at most, a valid email, a password of at least 8 characters,
      first and last names of 2 to 50 and an organization name of 2 to 100. */
  predicate RegisterAccepts(data: Value) {
    data.Absent? ||
    (&& data.Obj? && data.fields.Keys <= RegisterKeys
     && Get(data, "email").Str? && IsEmail(Get(data, "email").s)
     && Get(data, "password").Str? && |Get(data, "password").s| >= 8
     && LengthIn(Get(data, "firstName"), 2, 50)
     && LengthIn(Get(data, "lastName"), 2, 50)
     && LengthIn(Get(data, "organizationName"), 2, 100))
  }

  lemma StringCheckExact(v: Value, path: seq<Step>, min: nat, max: nat)
    requires min >= 1
    ensures CheckString(v, path, min, Some(max), true) == [] <==> LengthIn(v, min, max)
  {
  }

  lemma UnknownEmpty(v: Value, path: seq<Step>, declared: set<string>)
    requires v.Obj?
    ensures Unknown(v, path, declared) == [] <==> v.fields.Keys <= declared
  {
    if !(v.fields.Keys <= declared) {
      var k :| k in v.fields.Keys && k !in declared;
      assert Issue(path + [Key(k)], NotAllowed) in Unknown(v, path, declared);
    }
  }

  /** Registration data is accepted exactly when it meets the stated constraints. */
  lemma RegisterCheckExact(data: Value)
    ensures CheckRegister(data) == [] <==> RegisterAccepts(data)
  {
    if data.Obj? {
      StringCheckExact(Get(data, "firstName"), [Key("firstName")], 2, 50);
      StringCheckExact(Get(data, "lastName"), [Key("lastName")], 2, 50);
      StringCheckExact(Get(data, "organizationName"), [Key("organizationName")], 2, 100);
      UnknownEmpty(data, [], RegisterKeys);
    }
  }

  /** With `abortEarly: false` no violation hides another: a bad first name is
      reported whatever else is wrong, and so is a short password. */
  lemma RegisterReportsEveryField(data: Value)
    requires data.Obj?
    ensures !LengthIn(Get(data, "firstName"), 2, 50) ==>
              exists i :: i in CheckRegister(data) && i.path == [Key("firstName")]
    ensures !(Get(data, "password").Str? && |Get(data, "password").s| >= 8) ==>
              exists i :: i in CheckRegister(data) && i.path == [Key("password")]
  {
    var first := CheckString(Get(data, "firstName"), [Key("firstName")], 2, Some(50), true);
    var password := CheckString(Get(data, "password"), [Key("password")], 8, None, true);
    StringCheckExact(Get(data, "firstName"), [Key("firstName")], 2, 50);
    var all := CheckRegister(data);
    if !LengthIn(Get(data, "firstName"), 2, 50) {
      assert first != [] && first[0].path == [Key("firstName")];
      assert first[0] in all;
    }
    if !(Get(data, "password").Str? && |Get(data, "password").s| >= 8) {
      assert password != [] && password[0].path == [Key("password")];
      assert password[0] in all;
    }
  }

  // ---------------------------------------------------------------------------
  // loginSchema
  // ---------------------------------------------------------------------------

  const LoginKeys := {"email", "password"}

  ghost function CheckLogin(data: Value): seq<Issue> {
    if data.Absent? then []
    else if !data.Obj? then [Issue([], NotObject)]
    else
      CheckEmail(Get(data, "email"), [Key("email")])
      + CheckString(Get(data, "password"), [Key("password")], 0, None, true)
      + Unknown(data, [], LoginKeys)
  }

  /** What sign-in accepts: a valid email and any non-empty password, no other key. */
  predicate LoginAccepts(data: Value) {
    data.Absent? ||
    (&& data.Obj? && data.fields.Keys <= LoginKeys
     && Get(data, "email").Str? && IsEmail(Get(data, "email").s)
     && Get(data, "password").Str? && Get(data, "password").s != "")
  }

  /** Sign-in data is accepted exactly when it meets the stated constraints. */
  lemma LoginCheckExact(data: Value)
    ensures CheckLogin(data) == [] <==> LoginAccepts(data)
  {
    if data.Obj? {
      UnknownEmpty(data, [], LoginKeys);
    }
  }

  // ---------------------------------------------------------------------------
  // workflowSchema
  // ---------------------------------------------------------------------------

  const TriggerTypes := ["webhook", "schedule", "manual"]
  const ConditionOperators := ["contains", "equals", "matches_intent", "greater_than", "less_than"]
  const ActionTypes := ["email", "webhook", "notification", "log"]

  const WorkflowKeys := {"name", "description", "naturalLanguage", "trigger", "conditions", "actions"}
  const TriggerKeys := {"type", "config"}
  const ConditionKeys := {"field", "operator", "value", "aiIntent", "confidence"}
  const ActionKeys := {"type", "config", "order"}

  ghost function CheckTrigger(v: Value, path: seq<Step>): seq<Issue> {
    if v.Absent? then [Issue(path, Required)]
    else if !v.Obj? then [Issue(path, NotObject)]
    else
      CheckOneOf(Get(v, "type"), path + [Key("type")], TriggerTypes)
      + CheckAnyObject(Get(v, "config"), path + [Key("config")])
      + Unknown(v, path, TriggerKeys)
  }

  ghost function CheckCondition(v: Value, path: seq<Step>): seq<Issue> {
    if !v.Obj? then [Issue(path, NotObject)]
    else
      CheckString(Get(v, "field"), path + [Key("field")], 0, None, true)
      + CheckOneOf(Get(v, "operator"), path + [Key("operator")], ConditionOperators)
      + CheckStringOrNumber(Get(v, "value"), path + [Key("value")])
      + CheckString(Get(v, "aiIntent"), path + [Key("aiIntent")], 0, None, false)
      + CheckNumber(Get(v, "confidence"), path + [Key("confidence")], false, Some(0.0), Some(1.0), false)
      + Unknown(v, path, ConditionKeys)
  }

  ghost function CheckAction(v: Value, path: seq<Step>): seq<Issue> {
    if !v.Obj? then [Issue(path, NotObject)]
    else
      CheckOneOf(Get(v, "type"), path + [Key("type")], ActionTypes)
      + CheckAnyObject(Get(v, "config"), path + [Key("config")])
      + CheckNumber(Get(v, "order"), path + [Key("order")], true, Some(1.0), None, true)
      + Unknown(v, path, ActionKeys)
  }

  /** `Joi.array().items(item)` from index `i` on: each element checked under its index. */
  ghost function CheckItems(items: seq<Value>, path: seq<Step>, conditions: bool, i: nat): (r: seq<Issue>)
    decreases |items| - i
  {
    if i >= |items| then []
    else CheckItem(items[i], path + [Index(i)], conditions) + CheckItems(items, path, conditions, i + 1)
  }

  /** One element of `conditions` or of `actions`. */
  ghost function CheckItem(v: Value, path: seq<Step>, conditions: bool): seq<Issue> {
    if conditions then CheckCondition(v, path) else CheckAction(v, path)
  }

  ghost function CheckArray(v: Value, path: seq<Step>, conditions: bool, required: bool): seq<Issue> {
    if v.Absent? then (if required then [Issue(path, Required)] else [])
    else if !v.Arr? then [Issue(path, NotArray)]
    else CheckItems(v.items, path, conditions, 0)
  }

  ghost function CheckWorkflow(data: Value): seq<Issue> {
    if data.Absent? then []
    else if !data.Obj? then [Issue([], NotObject)]
    else
      CheckString(Get(data, "name"), [Key("name")], 3, Some(100), true)
      + CheckString(Get(data, "description"), [Key("description")], 0, Some(500), false)
      + CheckString(Get(data, "naturalLanguage"), [Key("naturalLanguage")], 0, Some(1000), false)
      + CheckTrigger(Get(data, "trigger"), [Key("trigger")])
      + CheckArray(Get(data, "conditions"), [Key("conditions")], true, false)
      + CheckArray(Get(data, "actions"), [Key("actions")], false, true)
      + Unknown(data, [], WorkflowKeys)
  }

  /** An optional string of at most `max` characters: absent, or non-empty and short enough. */
  predicate OptionalText(v: Value, max: nat) {
    v.Absent? || (v.Str? && v.s != "" && |v.s| <= max)
  }

  predicate TriggerAccepts(t: Value) {
    && t.Obj? && t.fields.Keys <= TriggerKeys
    && Get(t, "type").Str? && Get(t, "type").s in TriggerTypes
    && Get(t, "config").Obj?
  }

  predicate ActionAccepts(a: Value) {
    && a.Obj? && a.fields.Keys <= ActionKeys
    && Get(a, "type").Str? && Get(a, "type").s in ActionTypes
    && Get(a, "config").Obj?
    && NumberValue(Get(a, "order")).Some?
    && var n := NumberValue(Get(a, "order")).value; n.Floor as real == n && n >= 1.0
  }

  predicate ConditionAccepts(c: Value) {
    && c.Obj? && c.fields.Keys <= ConditionKeys
    && Get(c, "field").Str? && Get(c, "field").s != ""
    && Get(c, "operator").Str? && Get(c, "operator").s in ConditionOperators
    && ((Get(c, "value").Str? && Get(c, "value").s != "") || NumberValue(Get(c, "value")).Some?)
    && (Get(c, "aiIntent").Absent? || (Get(c, "aiIntent").Str? && Get(c, "aiIntent").s != ""))
    && (Get(c, "confidence").Absent? ||
        (NumberValue(Get(c, "confidence")).Some? && 0.0 <= NumberValue(Get(c, "confidence")).value <= 1.0))
  }

  /** What the workflow schema accepts, stated directly: a name of 3 to 100
      characters, optional description (up to 500) and natural-language text (up
      to 1000), a trigger whose type is one of the three and whose config is an
      object, optional conditions each with a field, one of the five operators, a
      string or numeric value and a confidence in [0, 1] if any, and an actions
      array, possibly empty, of actions with one of the four types, an object
      config and an integer order of at least 1. */
  predicate WorkflowAccepts(data: Value) {
    data.Absent? ||
    (&& data.Obj? && data.fields.Keys <= WorkflowKeys
     && LengthIn(Get(data, "name"), 3, 100)
     && OptionalText(Get(data, "description"), 500)
     && OptionalText(Get(data, "naturalLanguage"), 1000)
     && TriggerAccepts(Get(data, "trigger"))
     && (Get(data, "conditions").Absent? ||
         (Get(data, "conditions").Arr? && forall c :: c in Get(data, "conditions").items ==> ConditionAccepts(c)))
     && Get(data, "actions").Arr?
     && (forall a :: a in Get(data, "actions").items ==> ActionAccepts(a)))
  }

  lemma OptionalTextExact(v: Value, path: seq<Step>, max: nat)
    ensures CheckString(v, path, 0, Some(max), false) == [] <==> OptionalText(v, max)
  {
  }

  lemma TriggerExact(v: Value, path: seq<Step>)
    ensures CheckTrigger(v, path) == [] <==> TriggerAccepts(v)
  {
    if v.Obj? {
      UnknownEmpty(v, path, TriggerKeys);
    }
  }

  lemma ActionExact(v: Value, path: seq<Step>)
    ensures CheckAction(v, path) == [] <==> ActionAccepts(v)
  {
    if v.Obj? {
      UnknownEmpty(v, path, ActionKeys);
    }
  }

  lemma ConditionExact(v: Value, path: seq<Step>)
    ensures CheckCondition(v, path) == [] <==> ConditionAccepts(v)
  {
    if v.Obj? {
      UnknownEmpty(v, path, ConditionKeys);
    }
  }

  predicate ItemAccepts(v: Value, conditions: bool) {
    if conditions then ConditionAccepts(v) else ActionAccepts(v)
  }

  lemma {:induction false} ItemsExact(items: seq<Value>, path: seq<Step>, conditions: bool, i: nat)
    requires i <= |items|
    ensures CheckItems(items, path, conditions, i) == [] <==>
              forall j :: i <= j < |items| ==> ItemAccepts(items[j], conditions)
    decreases |items| - i
  {
    if i < |items| {
      var head := CheckItem(items[i], path + [Index(i)], conditions);
      var tail := CheckItems(items, path, conditions, i + 1);
      assert CheckItems(items, path, conditions, i) == head + tail;
      ItemExact(items[i], path + [Index(i)], conditions);
      ItemsExact(items, path, conditions, i + 1);
      assert head + tail == [] <==> head == [] && tail == [] by {
        if head + tail == [] {
          assert |head + tail| == |head| + |tail|;
        }
      }
    }
  }

  lemma ItemExact(v: Value, path: seq<Step>, conditions: bool)
    ensures CheckItem(v, path, conditions) == [] <==> ItemAccepts(v, conditions)
  {
    if conditions {
      ConditionExact(v, path);
    } else {
      ActionExact(v, path);
    }
  }

  lemma ArrayExact(v: Value, path: seq<Step>, conditions: bool, required: bool)
    ensures CheckArray(v, path, conditions, required) == [] <==>
              (v.Absent? && !required) || (v.Arr? && forall x :: x in v.items ==> ItemAccepts(x, conditions))
  {
    if v.Arr? {
      ItemsExact(v.items, path, conditions, 0);
      assert (forall x :: x in v.items ==> ItemAccepts(x, conditions))
         <==> (forall j :: 0 <= j < |v.items| ==> ItemAccepts(v.items[j], conditions));
    }
  }

  /** A workflow definition is accepted exactly when it meets the stated constraints. */
  lemma WorkflowCheckExact(data: Value)
    ensures CheckWorkflow(data) == [] <==> WorkflowAccepts(data)
  {
    if data.Obj? {
      StringCheckExact(Get(data, "name"), [Key("name")], 3, 100);
      OptionalTextExact(Get(data, "description"), [Key("description")], 500);
      OptionalTextExact(Get(data, "naturalLanguage"), [Key("naturalLanguage")], 1000);
      TriggerExact(Get(data, "trigger"), [Key("trigger")]);
      ArrayExact(Get(data, "conditions"), [Key("conditions")], true, false);
      ArrayExact(Get(data, "actions"), [Key("actions")], false, true);
      UnknownEmpty(data, [], WorkflowKeys);
    }
  }

  /** An action order must be a whole number of at least 1: 0 is refused as
      below the minimum, 1.5 as not an integer. */
  lemma ActionOrderRule(a: Value)
    requires ActionAccepts(a)
    ensures NumberValue(Get(a, "order")).value >= 1.0
    ensures Get(a, "order").Num? ==> Get(a, "order").n.Floor as real == Get(a, "order").n
  {
  }

  // ---------------------------------------------------------------------------
  // validateRequest
  // ---------------------------------------------------------------------------

  datatype FieldError = FieldError(field: string, message: string)

  datatype Validation = Valid(value: Value) | Invalid(errors: seq<FieldError>)

  /** `validateRequest`: valid with the data when there is no issue, otherwise
      every issue, in order, as its dotted path and its message. */
  function ValidateRequest(issues: seq<Issue>, data: Value): (r: Validation)
    ensures r.Valid? <==> issues == []
    ensures r.Valid? ==> r.value == data
    ensures r.Invalid? ==> |r.errors| == |issues|
    ensures r.Invalid? ==> forall i :: 0 <= i < |issues| ==>
              r.errors[i] == FieldError(FieldName(issues[i].path), Message(issues[i]))
  {
    if issues == [] then Valid(data)
    else Invalid(seq(|issues|, i requires 0 <= i < |issues| => FieldError(FieldName(issues[i].path), Message(issues[i]))))
  }

  /** `validateRequest(registerSchema, data)`. */
  ghost function ValidateRegister(data: Value): Validation {
    ValidateRequest(CheckRegister(data), data)
  }

  /** `validateRequest(workflowSchema, data)`. */
  ghost function ValidateWorkflow(data: Value): Validation {
    ValidateRequest(CheckWorkflow(data), data)
  }

  /** A missing body passes both schemas: neither is required. */
  lemma AbsentBodyIsValid()
    ensures ValidateRegister(Absent) == Valid(Absent)
    ensures ValidateWorkflow(Absent) == Valid(Absent)
  {
  }

  /** The dotted field names keys only: when no key holds a ".", the field
      splits back into the path's steps. */
  lemma {:induction false} FieldNameSplits(path: seq<Step>)
    requires path != []
    requires forall i :: 0 <= i < |path| ==> '.' !in StepText(path[i])
    ensures Split(FieldName(path), '.') == StepTexts(path)
  {
    var texts := StepTexts(path);
    JoinSplit(texts);
  }

  lemma {:induction false} JoinSplit(parts: seq<string>)
    requires parts != [] && forall i :: 0 <= i < |parts| ==> '.' !in parts[i]
    ensures Split(Join(parts, "."), '.') == parts
  {
    if |parts| == 1 {
      SplitWithoutSeparator(parts[0], '.');
    } else {
      JoinSplit(parts[1..]);
      SplitAround(parts[0], Join(parts[1..], "."));
    }
  }

  /** Splitting `a + "." + b` where `a` holds no "." gives `a`, then the parts of `b`. */
  lemma {:induction false} SplitAround(a: string, b: string)
    requires '.' !in a
    ensures Split(a + "." + b, '.') == [a] + Split(b, '.')
  {
    if a == [] {
      assert a + "." + b == ['.'] + b;
      assert (['.'] + b)[1..] == b;
    } else {
      assert (a + "." + b)[1..] == a[1..] + "." + b;
      SplitAround(a[1..], b);
      assert a == [a[0]] + a[1..];
    }
  }
}
