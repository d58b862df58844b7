/**
 * The execution record (the `Execution` collection): one run of a workflow,
 * with its trigger, its append-only step log and its lifecycle status. The
 * engine changes a record in place, so it is a class.
 */
module ExecutionModel {
  import opened Wrappers
  import opened JsValue
  import opened WorkflowTypes
  import opened WorkflowModel

  /** One entry of the step log. Times are clock readings in milliseconds.
      `duration` and `error` are optional paths; a `null` timestamp is stored
      as no time. */
  datatype Step = Step(
    kind: StepType,
    status: StepStatus,
    input: Value,
    output: Value,
    aiMetadata: Option<AIMetadata>,
    duration: Option<real>,
    error: Option<string>,
    timestamp: Option<int>)

  /** Why a step document is refused: a required or enumerated path, a
      `Number` or `String` cast (`duration`, `error`), or the `Date` cast. */
  datatype StepError = MissingType | BadType | MissingStatus | BadStatus | BadPath(e: SchemaError) | BadTimestamp

  /** The largest distance from the epoch, in milliseconds, that a `Date` holds. */
  const MaxTime: int := 8_640_000_000_000_000

  predicate InTimeRange(t: real) { -(MaxTime as real) <= t <= MaxTime as real }

  /** `new Date(n)`: the time value truncated toward zero, or an invalid date
      (None) beyond 8.64e15 ms either side of the epoch. */
  function TimeValue(n: real): (r: Option<int>)
    ensures r.Some? <==> InTimeRange(n)
    ensures r.Some? ==> -MaxTime <= r.value <= MaxTime
    ensures r.Some? && n >= 0.0 ==> r.value as real <= n < r.value as real + 1.0
    ensures r.Some? && n < 0.0 ==> r.value as real - 1.0 < n <= r.value as real
  {
    if !InTimeRange(n) then None
    else if n >= 0.0 then Some(n.Floor)
    else Some(-((-n).Floor))
  }

  /** `new Date(n)` as the cast stores it: refused when it is an invalid date. */
  function DateOfNumber(n: real): (r: Result<Option<int>, StepError>)
    ensures r.Success? <==> InTimeRange(n)
    ensures r.Success? ==> r.value == TimeValue(n) && r.value.Some?
  {
    if InTimeRange(n) then Success(TimeValue(n)) else Failure(BadTimestamp)
  }

  /** A parsed date as the cast stores it: refused when it is an invalid date. */
  function DateOfText(t: Option<int>): (r: Result<Option<int>, StepError>)
    ensures r.Success? <==> t.Some? && -MaxTime <= t.value <= MaxTime
    ensures r.Success? ==> r.value == t
  {
    if t.Some? && -MaxTime <= t.value <= MaxTime then Success(t) else Failure(BadTimestamp)
  }

  /** `Number(s)` lies outside the range of years `Date.parse` reads from bare
      digits, so the string is taken as milliseconds. */
  predicate MillisecondText(s: string) {
    StrToNum(s).Some? && (StrToNum(s).value >= 275761.0 || StrToNum(s).value < -271820.0)
  }

  /** Mongoose's `Date` cast. `null` and `""` are stored as no date; a number is
      a time value; a string that `Number` reads as at least 275761 or below
      -271820 is taken as milliseconds; any other string, and an array through
      its string form, is read by `parseDate` (the engine's `Date.parse`, None
      for an invalid date); booleans and objects are refused. */
  function CastDate(v: Value, parseDate: string -> Option<int>): (r: Result<Option<int>, StepError>)
    ensures v.Absent? || v.Null? || v == Str("") ==> r == Success(None)
    ensures v.Num? ==> r == DateOfNumber(v.n)
    ensures v.Str? && v.s != "" && MillisecondText(v.s) ==> r == DateOfNumber(StrToNum(v.s).value)
    ensures v.Str? && v.s != "" && !MillisecondText(v.s) ==> r == DateOfText(parseDate(v.s))
    ensures v.Bool? || v.Obj? ==> r == Failure(BadTimestamp)
    ensures r.Success? && r.value.Some? ==> -MaxTime <= r.value.value <= MaxTime
  {
    match v
    case Absent => Success(None)
    case Null => Success(None)
    case Num(n) => DateOfNumber(n)
    case Str(s) =>
      if s == "" then Success(None)
      else if MillisecondText(s) then DateOfNumber(StrToNum(s).value)
      else DateOfText(parseDate(s))
    case Arr(_) => DateOfText(parseDate(ToStr(v)))
    case Bool(_) => Failure(BadTimestamp)
    case Obj(_) => Failure(BadTimestamp)
  }

  /** Casts a step document: `type` and `status` are required and must come
      from their enumerations, `duration` goes through the `Number` cast,
      `error` through the `String` cast and `timestamp` through the `Date`
      cast, and a missing timestamp becomes `now`. The first failing path, in
      schema order, is the error. */
  function CastStep(doc: Value, now: int, parseDate: string -> Option<int>): (r: Result<Step, StepError>)
    ensures r.Success? <==>
              && Get(doc, "type").Str? && Get(doc, "type").s in StepTypeNames
              && Get(doc, "status").Str? && Get(doc, "status").s in StepStatusNames
              && CastNumber(Get(doc, "duration"), "duration").Success?
              && OptionalString(doc, "error", false).Success?
              && CastDate(Get(doc, "timestamp"), parseDate).Success?
    ensures r.Success? ==> Str(r.value.kind.Name()) == Get(doc, "type") && Str(r.value.status.Name()) == Get(doc, "status")
    ensures r.Success? ==>
              && r.value.input == Get(doc, "input") && r.value.output == Get(doc, "output")
              && r.value.aiMetadata == ReadAIMetadata(Get(doc, "aiMetadata"))
              && CastNumber(Get(doc, "duration"), "duration") == Success(r.value.duration)
              && OptionalString(doc, "error", false) == Success(r.value.error)
    ensures r.Success? && Get(doc, "timestamp").Absent? ==> r.value.timestamp == Some(now)
    ensures r.Success? && !Get(doc, "timestamp").Absent? ==> CastDate(Get(doc, "timestamp"), parseDate) == Success(r.value.timestamp)
    ensures Get(doc, "type").Absent? ==> r == Failure(MissingType)
  {
    var t := Get(doc, "type");
    var s := Get(doc, "status");
    var ts := Get(doc, "timestamp");
    var duration := CastNumber(Get(doc, "duration"), "duration");
    var err := OptionalString(doc, "error", false);
    var stamp := CastDate(ts, parseDate);
    if t.Absent? || t.Null? then Failure(MissingType)
    else if !t.Str? || ParseStepType(t.s).None? then Failure(BadType)
    else if s.Absent? || s.Null? then Failure(MissingStatus)
    else if !s.Str? || ParseStepStatus(s.s).None? then Failure(BadStatus)
    else if duration.Failure? then Failure(BadPath(duration.error))
    else if err.Failure? then Failure(BadPath(err.error))
    else if stamp.Failure? then Failure(stamp.error)
    else
      Success(Step(
        ParseStepType(t.s).value,
        ParseStepStatus(s.s).value,
        Get(doc, "input"),
        Get(doc, "output"),
        ReadAIMetadata(Get(doc, "aiMetadata")),
        duration.value,
        err.value,
        if ts.Absent? then Some(now) else stamp.value))
  }

  /** The document stored for a step: every path the step has, and `null` for
      a step without a timestamp. */
  function StepDoc(s: Step): Value {
    var base := map["type" := Str(s.kind.Name()), "status" := Str(s.status.Name()),
                    "input" := s.input, "output" := s.output,
                    "timestamp" := if s.timestamp.Some? then Num(s.timestamp.value as real) else Null];
    var withMeta := if s.aiMetadata.Some? then base["aiMetadata" := AIMetadataToValue(s.aiMetadata.value)] else base;
    var withDuration := if s.duration.Some? then withMeta["duration" := Num(s.duration.value)] else withMeta;
    Obj(if s.error.Some? then withDuration["error" := Str(s.error.value)] else withDuration)
  }

  /** A step whose timestamp, if any, is a valid date. */
  predicate Storable(s: Step) {
    s.timestamp.Some? ==> -MaxTime <= s.timestamp.value <= MaxTime
  }

  /** A stored step casts back to itself, whatever the clock and the date parser. */
  lemma CastStoredStep(s: Step, now: int, parseDate: string -> Option<int>)
    requires Storable(s)
    ensures CastStep(StepDoc(s), now, parseDate) == Success(s)
  {
    var doc := StepDoc(s);
    StoredPaths(s);
    StoredCasts(s, parseDate);
    var r := CastStep(doc, now, parseDate);
    assert ParseStepType(s.kind.Name()) == Some(s.kind);
    assert ParseStepStatus(s.status.Name()) == Some(s.status);
    assert r.Success?;
    assert ParseStepType(r.value.kind.Name()) == Some(s.kind);
    assert ParseStepStatus(r.value.status.Name()) == Some(s.status);
  }

  /** What each path of a stored step's document holds. */
  lemma StoredPaths(s: Step)
    ensures var doc := StepDoc(s);
            && Get(doc, "type") == Str(s.kind.Name()) && Get(doc, "status") == Str(s.status.Name())
            && Get(doc, "input") == s.input && Get(doc, "output") == s.output
            && Get(doc, "aiMetadata") == (if s.aiMetadata.Some? then AIMetadataToValue(s.aiMetadata.value) else Absent)
            && Get(doc, "duration") == (if s.duration.Some? then Num(s.duration.value) else Absent)
            && Get(doc, "error") == (if s.error.Some? then Str(s.error.value) else Absent)
            && Get(doc, "timestamp") == (if s.timestamp.Some? then Num(s.timestamp.value as real) else Null)
  {
  }

  /** The optional paths of a stored step cast back to the step's values. */
  lemma StoredCasts(s: Step, parseDate: string -> Option<int>)
    requires Storable(s)
    ensures var doc := StepDoc(s);
            && ReadAIMetadata(Get(doc, "aiMetadata")) == s.aiMetadata
            && CastNumber(Get(doc, "duration"), "duration") == Success(s.duration)
            && OptionalString(doc, "error", false) == Success(s.error)
            && CastDate(Get(doc, "timestamp"), parseDate) == Success(s.timestamp)
  {
    StoredPaths(s);
    if s.aiMetadata.Some? {
      ReadStoredAIMetadata(s.aiMetadata.value);
    }
    if s.timestamp.Some? {
      var t := s.timestamp.value;
      assert TimeValue(t as real) == Some(t);
    }
  }

  /** The steps of kind `k` in a log. */
  function StepsOfKind(steps: seq<Step>, k: StepType): (r: seq<Step>)
    ensures |r| <= |steps|
    ensures forall s :: s in r ==> s in steps && s.kind == k
    ensures forall s :: s in steps && s.kind == k ==> s in r
  {
    if steps == [] then []
    else (if steps[0].kind == k then [steps[0]] else []) + StepsOfKind(steps[1..], k)
  }

  lemma {:induction false} StepsOfKindAppend(a: seq<Step>, b: seq<Step>, k: StepType)
    ensures StepsOfKind(a + b, k) == StepsOfKind(a, k) + StepsOfKind(b, k)
  {
    if a == [] {
      assert a + b == b;
    } else {
      assert (a + b)[0] == a[0];
      assert (a + b)[1..] == a[1..] + b;
      StepsOfKindAppend(a[1..], b, k);
    }
  }

  class Execution {
    const id: string
    const organizationId: string
    const workflowId: string
    const triggerType: string
    const triggerData: Value
    var steps: seq<Step>
    var status: ExecutionStatus
    var startedAt: int
    var completedAt: Option<int>
    var duration: Option<int>

    /** `Execution.create`: organization, workflow and trigger type are
        required; status starts as running and `startedAt` as now, with an empty
        log and no completion time or duration. */
    constructor (id: string, organizationId: string, workflowId: string, triggerType: string,
                 triggerData: Value, now: int)
      requires organizationId != "" && workflowId != "" && triggerType != ""
      ensures this.id == id && this.organizationId == organizationId && this.workflowId == workflowId
      ensures this.triggerType == triggerType && this.triggerData == triggerData
      ensures steps == [] && status == Running && startedAt == now
      ensures completedAt == None && duration == None
    {
      this.id := id;
      this.organizationId := organizationId;
      this.workflowId := workflowId;
      this.triggerType := triggerType;
      this.triggerData := triggerData;
      steps := [];
      status := Running;
      startedAt := now;
      completedAt := None;
      duration := None;
    }

    /** `execution.steps.push(step)`: the log only ever grows at its end. */
    method Push(s: Step)
      modifies this
      ensures steps == old(steps) + [s]
      ensures status == old(status) && startedAt == old(startedAt)
      ensures completedAt == old(completedAt) && duration == old(duration)
    {
      steps := steps + [s];
    }

    /** Sets the final status together with the completion time and duration. */
    method Finish(final: ExecutionStatus, completed: int, elapsed: int)
      modifies this
      ensures status == final && completedAt == Some(completed) && duration == Some(elapsed)
      ensures steps == old(steps) && startedAt == old(startedAt)
    {
      status := final;
      completedAt := Some(completed);
      duration := Some(elapsed);
    }
  }
}
