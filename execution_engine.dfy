/**
 * The workflow execution engine: one run of a workflow over one `Execution`
 * record. The run is guarded on the workflow's existence and status, evaluates
 * the AND-combined conditions with short-circuit, runs the actions in ascending
 * `order` (each in its own try/catch), appends one step per event to the log and
 * ends completed or failed; `CancelExecution` ends a running record cancelled.
 *
 * Everything the engine asks of the outside world is an oracle indexed by how
 * many times it has been asked: the clock, every database write (`save`,
 * `create`, `findByIdAndUpdate`; an answer `Some(message)` means the write
 * throws), the intent classifier and the mail/HTTP world of the n-th action.
 * The specification functions below say what a phase does given the oracle
 * counters at its start; the methods of `Engine` are proved to do exactly that.
 */
module ExecutionEngine {
  import opened Wrappers
  import opened JsValue
  import opened WorkflowTypes
  import opened WorkflowModel
  import opened Store
  import opened ExecutionModel
  import opened ActionExecutor
  import opened Errors

  datatype Oracles = Oracles(
    clock: nat -> int,
    save: nat -> Option<string>,
    classify: (nat, Value) -> Result<AIMetadata, string>,
    world: nat -> ActionWorld)

  // ---------------------------------------------------------------------------
  // evaluateSingleCondition without the AI
  // ---------------------------------------------------------------------------

  /** The verdict of a comparison operator on the looked-up field value and the
      condition's value: strict equality, case-insensitive substring of the
      stringified values, or numeric order where both sides convert to a number
      (NaN compares false). The AI operator is dispatched before this is
      consulted, so it compares false here. */
  function Compare(op: ConditionOperator, fieldValue: Value, target: Value): (r: bool)
    ensures op == EqualsOp ==> (r <==> StrictEquals(fieldValue, target))
    ensures op == Contains ==> (r <==> Includes(Lower(ToStr(fieldValue)), Lower(ToStr(target))))
    ensures op == GreaterThan ==>
              (r <==> ToNum(fieldValue).Some? && ToNum(target).Some? && ToNum(fieldValue).value > ToNum(target).value)
    ensures op == LessThan ==>
              (r <==> ToNum(fieldValue).Some? && ToNum(target).Some? && ToNum(fieldValue).value < ToNum(target).value)
    ensures op == MatchesIntent ==> !r
  {
    match op
    case EqualsOp => StrictEquals(fieldValue, target)
    case Contains => Includes(Lower(ToStr(fieldValue)), Lower(ToStr(target)))
    case GreaterThan => (match (ToNum(fieldValue), ToNum(target)) case (Some(a), Some(b)) => a > b case _ => false)
    case LessThan => (match (ToNum(fieldValue), ToNum(target)) case (Some(a), Some(b)) => a < b case _ => false)
    case MatchesIntent => false
  }

  /** A value that `Number(...)` turns into NaN is neither greater nor less than anything. */
  lemma NaNComparesFalse(fieldValue: Value, target: Value)
    requires ToNum(fieldValue).None? || ToNum(target).None?
    ensures !Compare(GreaterThan, fieldValue, target) && !Compare(LessThan, fieldValue, target)
  {
  }

  /** `contains` is case-insensitive and every value contains itself. */
  lemma ContainsIgnoresCase(s: string, t: string)
    ensures Compare(Contains, Str(Lower(s)), Str(t)) == Compare(Contains, Str(s), Str(Lower(t)))
    ensures Compare(Contains, Str(s), Str(s))
  {
    LowerIdempotent(s);
    LowerIdempotent(t);
    assert OccursAt(Lower(s), Lower(s), 0);
  }

  /** `contains` holds exactly when the lower-cased text of the condition's value
      occurs somewhere in the lower-cased text of the field. */
  lemma ContainsMeansOccurs(h: string, n: string)
    ensures Compare(Contains, Str(h), Str(n)) <==> exists i: nat :: OccursAt(Lower(h), Lower(n), i)
  {
    assert ToStr(Str(h)) == h && ToStr(Str(n)) == n;
    assert Compare(Contains, Str(h), Str(n)) == Includes(Lower(h), Lower(n));
  }

  /** Greater-than and less-than never hold together; equality is symmetric. */
  lemma ComparisonsConsistent(a: Value, b: Value)
    ensures !(Compare(GreaterThan, a, b) && Compare(LessThan, a, b))
    ensures Compare(GreaterThan, a, b) == Compare(LessThan, b, a)
    ensures Compare(EqualsOp, a, b) == Compare(EqualsOp, b, a)
  {
  }

  /** The AI verdict: the detected intent is strictly the condition's value, and
      the confidence meets the condition's threshold unless that is absent or 0. */
  predicate IntentVerdict(meta: AIMetadata, c: Condition) {
    StrictEquals(Str(meta.intent), c.value)
    && (c.confidence.None? || c.confidence.value == 0.0 || meta.confidence >= c.confidence.value)
  }

  /** A threshold of 0 is falsy: it behaves as no threshold at all. */
  lemma ZeroThresholdIsNoThreshold(meta: AIMetadata, c: Condition)
    requires c.confidence == Some(0.0)
    ensures IntentVerdict(meta, c) <==> IntentVerdict(meta, c.(confidence := None))
    ensures IntentVerdict(meta, c) <==> StrictEquals(Str(meta.intent), c.value)
  {
  }

  /** A more confident classification of the same intent never turns a pass into a failure. */
  lemma IntentVerdictMonotone(meta: AIMetadata, conf: real, c: Condition)
    requires conf >= meta.confidence
    requires IntentVerdict(meta, c)
    ensures IntentVerdict(meta.(confidence := conf), c)
  {
  }

  // ---------------------------------------------------------------------------
  // Log entries
  // ---------------------------------------------------------------------------

  /** A step without its times: what the specification says of a step. */
  datatype Entry = Entry(
    kind: StepType, status: StepStatus, input: Value, output: Value,
    aiMetadata: Option<AIMetadata>, error: Option<string>)

  function EntryOf(s: Step): Entry {
    Entry(s.kind, s.status, s.input, s.output, s.aiMetadata, s.error)
  }

  /** The step logged for `en`, taken `duration` milliseconds and stamped `timestamp`. */
  function Timed(en: Entry, duration: int, timestamp: int): Step {
    Step(en.kind, en.status, en.input, en.output, en.aiMetadata, Some(duration as real), en.error, Some(timestamp))
  }

  /** The steps carry exactly the given entries, in order. */
  predicate Logged(steps: seq<Step>, entries: seq<Entry>) {
    |steps| == |entries| && forall i :: 0 <= i < |steps| ==> EntryOf(steps[i]) == entries[i]
  }

  lemma LoggedAppend(a: seq<Step>, x: seq<Entry>, b: seq<Step>, y: seq<Entry>)
    requires Logged(a, x) && Logged(b, y)
    ensures Logged(a + b, x + y)
  {
    forall i | 0 <= i < |a + b| ensures EntryOf((a + b)[i]) == (x + y)[i] {
      if i >= |a| {
        assert (a + b)[i] == b[i - |a|];
      }
    }
  }

  /** `steps` is `before` with exactly the entries `added` appended. */
  predicate Extends(steps: seq<Step>, before: seq<Step>, added: seq<Entry>) {
    |before| <= |steps| && steps[..|before|] == before && Logged(steps[|before|..], added)
  }

  lemma ExtendsTrans(s0: seq<Step>, s1: seq<Step>, s2: seq<Step>, x: seq<Entry>, y: seq<Entry>)
    requires Extends(s1, s0, x) && Extends(s2, s1, y)
    ensures Extends(s2, s0, x + y)
  {
    assert s2[..|s0|] == s1[..|s0|];
    assert s2[|s0|..] == s1[|s0|..] + s2[|s1|..];
    LoggedAppend(s1[|s0|..], x, s2[|s1|..], y);
  }

  lemma ExtendsOne(s0: seq<Step>, st: Step)
    ensures Extends(s0 + [st], s0, [EntryOf(st)])
  {
    assert (s0 + [st])[|s0|..] == [st];
  }

  lemma ExtendsNone(s0: seq<Step>)
    ensures Extends(s0, s0, [])
  {
  }

  function AiPassed(fieldValue: Value, c: Condition, meta: AIMetadata): Entry {
    Entry(AiAnalysis, StepSuccess, Obj(map["text" := fieldValue, "expectedIntent" := c.value]),
          Obj(map["detectedIntent" := Str(meta.intent)]), Some(meta), None)
  }

  function AiFailed(fieldValue: Value, message: string): Entry {
    Entry(AiAnalysis, StepFailed, Obj(map["text" := fieldValue]), Obj(map[]), None, Some(message))
  }

  function ConditionDocs(cs: seq<Condition>): (r: seq<Value>)
    ensures |r| == |cs|
  {
    seq(|cs|, i requires 0 <= i < |cs| => ConditionDoc(cs[i]))
  }

  function ConditionChecked(cs: seq<Condition>, data: Value, pass: bool): Entry {
    Entry(ConditionCheck, if pass then StepSuccess else StepFailed,
          Obj(map["conditions" := Arr(ConditionDocs(cs)), "triggerData" := data]),
          Obj(map["result" := Bool(pass)]), None, None)
  }

  function ConditionCheckFailed(cs: seq<Condition>, message: string): Entry {
    Entry(ConditionCheck, StepFailed, Obj(map["conditions" := Arr(ConditionDocs(cs))]), Obj(map[]), None, Some(message))
  }

  function ActionDone(a: Action, result: Value): Entry {
    Entry(ActionExecute, StepSuccess, Obj(map["action" := ActionDoc(a)]), result, None, None)
  }

  function ActionFailed(a: Action, message: string): Entry {
    Entry(ActionExecute, StepFailed, Obj(map["action" := ActionDoc(a)]), Obj(map[]), None, Some(message))
  }

  /** The step the outer catch of `execute` appends. */
  function RunFailed(message: string): Entry {
    Entry(ActionExecute, StepFailed, Obj(map[]), Obj(map[]), None, Some(message))
  }

  // ---------------------------------------------------------------------------
  // What a phase does, given how many times each oracle was asked before it
  // ---------------------------------------------------------------------------

  /** The verdict of a condition, the entries it logged and the new counts of
      writes and classifications. */
  datatype Probe = Probe(pass: bool, added: seq<Entry>, writes: nat, classified: nat)

  /** evaluateIntentCondition: classify, record the analysis, log the step and
      save, and compare. Every failure on the way (classifier, the analysis
      record, the save) logs a failed AI step, saves again and gives false; a
      failure of that last save is caught by evaluateSingleCondition and also
      gives false, so the condition never throws. */
  function IntentOutcome(env: Oracles, writes: nat, classified: nat, text: Value, c: Condition): Probe
  {
    match env.classify(classified, text)
    case Failure(msg) => Probe(false, [AiFailed(text, msg)], writes + 1, classified + 1)
    case Success(meta) =>
      if env.save(writes).Some? then
        Probe(false, [AiFailed(text, env.save(writes).value)], writes + 2, classified + 1)
      else if env.save(writes + 1).Some? then
        Probe(false, [AiPassed(text, c, meta), AiFailed(text, env.save(writes + 1).value)], writes + 3, classified + 1)
      else
        Probe(IntentVerdict(meta, c), [AiPassed(text, c, meta)], writes + 2, classified + 1)
  }

  /** An AI condition asks the classifier once and writes once to three times;
      it passes only when the classification and both saves succeed and the
      verdict holds, and then it has logged exactly one successful analysis
      entry; a classifier failure logs one failed entry carrying its message. */
  lemma IntentPassesOnlyWhenRecorded(env: Oracles, writes: nat, classified: nat, text: Value, c: Condition)
    ensures var p := IntentOutcome(env, writes, classified, text, c);
            var cls := env.classify(classified, text);
            && p.classified == classified + 1
            && writes + 1 <= p.writes <= writes + 3
            && (p.pass <==> cls.Success? && env.save(writes).None? && env.save(writes + 1).None? && IntentVerdict(cls.value, c))
            && (p.pass ==> p.added == [AiPassed(text, c, cls.value)])
            && (cls.Failure? ==> p.added == [AiFailed(text, cls.error)])
            && 1 <= |p.added| <= 2 && AllAi(p.added)
  {
  }

  /** evaluateSingleCondition: the field is looked up by its dot path in the
      trigger data; the AI operator asks the classifier, the others compare
      without logging anything. */
  function SingleOutcome(env: Oracles, writes: nat, classified: nat, c: Condition, data: Value): Probe
  {
    var fieldValue := GetPath(data, c.field);
    if c.operator == MatchesIntent then IntentOutcome(env, writes, classified, fieldValue, c)
    else Probe(Compare(c.operator, fieldValue, c.value), [], writes, classified)
  }

  /** An evaluator of one condition, given the counts of writes and
      classifications made before it. */
  type Judge = (nat, nat, Condition) -> Probe

  /** evaluateSingleCondition on the trigger data `data`. */
  function Judges(env: Oracles, data: Value): Judge {
    (w: nat, cl: nat, c: Condition) => SingleOutcome(env, w, cl, c, data)
  }

  /** `judge` agrees with evaluateSingleCondition on the trigger data `data`
      wherever the latter is looked at. */
  ghost predicate Evaluates(judge: Judge, env: Oracles, data: Value) {
    forall w: nat, cl: nat, c: Condition {:trigger SingleOutcome(env, w, cl, c, data)} ::
      judge(w, cl, c) == SingleOutcome(env, w, cl, c, data)
  }

  /** The evaluator never takes back a write or a classification. */
  ghost predicate Counts(judge: Judge) {
    forall w: nat, cl: nat, c: Condition :: judge(w, cl, c).writes >= w && judge(w, cl, c).classified >= cl
  }

  /** Every entry is an AI analysis entry. */
  predicate AllAi(es: seq<Entry>) {
    forall k :: 0 <= k < |es| ==> es[k].kind == AiAnalysis
  }

  /** The evaluator logs nothing but AI analysis entries. */
  ghost predicate LogsOnlyAi(judge: Judge) {
    forall w: nat, cl: nat, c: Condition :: AllAi(judge(w, cl, c).added)
  }

  lemma JudgesSound(env: Oracles, data: Value)
    ensures Counts(Judges(env, data)) && LogsOnlyAi(Judges(env, data))
  {
    forall w: nat, cl: nat, c: Condition
      ensures var p := Judges(env, data)(w, cl, c);
              p.writes >= w && p.classified >= cl && AllAi(p.added)
    {
      if c.operator == MatchesIntent {
        IntentPassesOnlyWhenRecorded(env, w, cl, GetPath(data, c.field), c);
      }
    }
  }

  /** The AND of the conditions from index `i` on, stopping at the first that fails. */
  function ConditionsFrom(judge: Judge, writes: nat, classified: nat, conds: seq<Condition>, i: nat): (p: Probe)
    requires i <= |conds|
    decreases |conds| - i
  {
    if i == |conds| then Probe(true, [], writes, classified)
    else
      var first := judge(writes, classified, conds[i]);
      if !first.pass then first
      else
        var rest := ConditionsFrom(judge, first.writes, first.classified, conds, i + 1);
        Probe(rest.pass, first.added + rest.added, rest.writes, rest.classified)
  }

  lemma {:induction false} ConditionsFromCounts(judge: Judge, writes: nat, classified: nat, conds: seq<Condition>, i: nat)
    requires i <= |conds| && Counts(judge)
    ensures var p := ConditionsFrom(judge, writes, classified, conds, i);
            p.writes >= writes && p.classified >= classified
    decreases |conds| - i
  {
    if i < |conds| {
      var first := judge(writes, classified, conds[i]);
      ConditionsFromCounts(judge, first.writes, first.classified, conds, i + 1);
    }
  }

  /** The outcome of evaluateConditions: the verdict or the message it throws. */
  datatype Phase = Phase(outcome: Result<bool, string>, added: seq<Entry>, writes: nat, classified: nat)

  /** The entries logged after the loop of evaluateConditions, given the answer of the save. */
  function CheckEntries(msg: Option<string>, conds: seq<Condition>, data: Value, pass: bool): seq<Entry> {
    if msg.None? then [ConditionChecked(conds, data, pass)]
    else [ConditionChecked(conds, data, pass), ConditionCheckFailed(conds, msg.value)]
  }

  /** evaluateConditions: no conditions pass without a log entry; otherwise one
      condition-check entry follows the AI entries, and a failed save of it logs
      a failed condition-check entry, saves again and throws. */
  function ConditionsPhase(env: Oracles, judge: Judge, writes: nat, classified: nat, conds: seq<Condition>, data: Value)
    : Phase
  {
    if conds == [] then Phase(Success(true), [], writes, classified)
    else
      var run := ConditionsFrom(judge, writes, classified, conds, 0);
      var msg := env.save(run.writes);
      Phase(if msg.None? then Success(run.pass)
            else Failure(if env.save(run.writes + 1).Some? then env.save(run.writes + 1).value else msg.value),
            run.added + CheckEntries(msg, conds, data, run.pass),
            run.writes + (if msg.None? then 1 else 2), run.classified)
  }

  /** Without conditions the check passes and logs nothing; otherwise exactly
      one condition-check entry, carrying the verdict, follows the AI entries,
      and the check throws exactly when saving it fails. */
  lemma ConditionCheckLogged(env: Oracles, judge: Judge, writes: nat, classified: nat, conds: seq<Condition>, data: Value)
    requires LogsOnlyAi(judge)
    ensures var p := ConditionsPhase(env, judge, writes, classified, conds, data);
            && (conds == [] ==> p == Phase(Success(true), [], writes, classified))
            && (conds != [] ==>
                  var run := ConditionsFrom(judge, writes, classified, conds, 0);
                  && (p.outcome.Success? <==> env.save(run.writes).None?)
                  && (p.outcome.Success? ==> p.outcome.value == run.pass)
                  && |p.added| >= |run.added| + 1 && p.added[..|run.added|] == run.added
                  && p.added[|run.added|] == ConditionChecked(conds, data, run.pass)
                  && CountKind(p.added, ConditionCheck) == (if p.outcome.Success? then 1 else 2))
  {
    if conds != [] {
      var run := ConditionsFrom(judge, writes, classified, conds, 0);
      var p := ConditionsPhase(env, judge, writes, classified, conds, data);
      ConditionsLogOnlyAi(judge, writes, classified, conds, 0);
      CountKindNone(run.added, ConditionCheck);
      var tail := CheckEntries(env.save(run.writes), conds, data, run.pass);
      CountKindAppend(run.added, tail, ConditionCheck);
      assert p.added[..|run.added|] == run.added;
      if env.save(run.writes).Some? {
        assert tail == [tail[0]] + [tail[1]];
        CountKindAppend([tail[0]], [tail[1]], ConditionCheck);
      }
    }
  }

  /** The number of entries of kind `k`. */
  function CountKind(es: seq<Entry>, k: StepType): (n: nat)
    ensures n <= |es|
  {
    if es == [] then 0 else (if es[0].kind == k then 1 else 0) + CountKind(es[1..], k)
  }

  lemma {:induction false} CountKindAppend(a: seq<Entry>, b: seq<Entry>, k: StepType)
    ensures CountKind(a + b, k) == CountKind(a, k) + CountKind(b, k)
  {
    if a != [] {
      assert (a + b)[1..] == a[1..] + b;
      CountKindAppend(a[1..], b, k);
    } else {
      assert a + b == b;
    }
  }

  lemma {:induction false} CountKindNone(es: seq<Entry>, k: StepType)
    requires forall i :: 0 <= i < |es| ==> es[i].kind != k
    ensures CountKind(es, k) == 0
  {
    if es != [] {
      CountKindNone(es[1..], k);
    }
  }

  /** The condition loop logs nothing but AI analysis entries. */
  lemma {:induction false} ConditionsLogOnlyAi(judge: Judge, writes: nat, classified: nat, conds: seq<Condition>, i: nat)
    requires i <= |conds| && LogsOnlyAi(judge)
    ensures AllAi(ConditionsFrom(judge, writes, classified, conds, i).added)
    decreases |conds| - i
  {
    if i < |conds| {
      var first := judge(writes, classified, conds[i]);
      if first.pass {
        ConditionsLogOnlyAi(judge, first.writes, first.classified, conds, i + 1);
        var rest := ConditionsFrom(judge, first.writes, first.classified, conds, i + 1);
        var all := first.added + rest.added;
        forall k | 0 <= k < |all| ensures all[k].kind == AiAnalysis {
          if k >= |first.added| {
            assert all[k] == rest.added[k - |first.added|];
          } else {
            assert all[k] == first.added[k];
          }
        }
        assert AllAi(all);
      }
    }
  }

  /** A condition whose operator compares without the AI holds on the trigger data. */
  predicate Holds(c: Condition, data: Value) {
    Compare(c.operator, GetPath(data, c.field), c.value)
  }

  /** The number of AI conditions. */
  function IntentCount(conds: seq<Condition>): (n: nat)
    ensures n <= |conds|
  {
    if conds == [] then 0 else (if conds[0].operator == MatchesIntent then 1 else 0) + IntentCount(conds[1..])
  }

  /** Conditions after the first failing one are never evaluated: appending
      more conditions to a list that fails changes nothing, not even the log. */
  lemma {:induction false} ConditionsStopAtFailure(judge: Judge, writes: nat, classified: nat,
                                                   conds: seq<Condition>, more: seq<Condition>, i: nat)
    requires i <= |conds|
    requires !ConditionsFrom(judge, writes, classified, conds, i).pass
    ensures ConditionsFrom(judge, writes, classified, conds + more, i) == ConditionsFrom(judge, writes, classified, conds, i)
    decreases |conds| - i
  {
    assert i < |conds|;
    assert (conds + more)[i] == conds[i];
    var first := judge(writes, classified, conds[i]);
    if first.pass {
      ConditionsStopAtFailure(judge, first.writes, first.classified, conds, more, i + 1);
    }
  }

  /** Without AI conditions the verdict is the AND of the comparisons, nothing is
      logged and no oracle is asked. */
  lemma {:induction false} PlainConditions(env: Oracles, writes: nat, classified: nat,
                                           conds: seq<Condition>, data: Value, i: nat)
    requires i <= |conds|
    requires forall k :: i <= k < |conds| ==> conds[k].operator != MatchesIntent
    ensures var p := ConditionsFrom(Judges(env, data), writes, classified, conds, i);
            && p.added == [] && p.writes == writes && p.classified == classified
            && (p.pass <==> forall k :: i <= k < |conds| ==> Holds(conds[k], data))
    decreases |conds| - i
  {
    if i < |conds| {
      PlainStep(env, writes, classified, conds[i], data);
      PlainConditions(env, writes, classified, conds, data, i + 1);
      HoldsFrom(conds, data, i);
    }
  }

  /** A comparison condition asks no oracle and logs nothing. */
  lemma PlainStep(env: Oracles, writes: nat, classified: nat, c: Condition, data: Value)
    requires c.operator != MatchesIntent
    ensures Judges(env, data)(writes, classified, c) == Probe(Holds(c, data), [], writes, classified)
  {
    assert Judges(env, data)(writes, classified, c) == SingleOutcome(env, writes, classified, c, data);
  }

  lemma HoldsFrom(conds: seq<Condition>, data: Value, i: nat)
    requires i < |conds|
    ensures (forall k :: i <= k < |conds| ==> Holds(conds[k], data))
            <==> Holds(conds[i], data) && forall k :: i + 1 <= k < |conds| ==> Holds(conds[k], data)
  {
  }

  /** A passing run asked the classifier exactly once per AI condition and
      logged one successful analysis entry for each. */
  lemma {:induction false} PassingConditionsClassifyEach(env: Oracles, writes: nat, classified: nat,
                                                         conds: seq<Condition>, data: Value, i: nat)
    requires i <= |conds|
    requires ConditionsFrom(Judges(env, data), writes, classified, conds, i).pass
    ensures var p := ConditionsFrom(Judges(env, data), writes, classified, conds, i);
            && p.classified == classified + IntentCount(conds[i..])
            && |p.added| == IntentCount(conds[i..])
            && forall k :: 0 <= k < |p.added| ==> p.added[k].kind == AiAnalysis && p.added[k].status == StepSuccess
    decreases |conds| - i
  {
    if i < |conds| {
      var first := Judges(env, data)(writes, classified, conds[i]);
      assert first == SingleOutcome(env, writes, classified, conds[i], data);
      if conds[i].operator == MatchesIntent {
        IntentPassesOnlyWhenRecorded(env, writes, classified, GetPath(data, conds[i].field), conds[i]);
      }
      assert conds[i..][1..] == conds[i + 1..];
      PassingConditionsClassifyEach(env, first.writes, first.classified, conds, data, i + 1);
    }
  }

  // ---------------------------------------------------------------------------
  // Ordering the actions: a stable sort on `order`
  // ---------------------------------------------------------------------------

  predicate SortedByOrder(acts: seq<Action>) {
    forall i, j :: 0 <= i < j < |acts| ==> acts[i].order <= acts[j].order
  }

  /** The actions whose `order` is `x`, in sequence. */
  function WithOrder(acts: seq<Action>, x: real): (r: seq<Action>)
    ensures |r| <= |acts|
  {
    if acts == [] then [] else (if acts[0].order == x then [acts[0]] else []) + WithOrder(acts[1..], x)
  }

  /** Puts `a` in front of the first action of `acts` whose order is not below its own. */
  function Insert(a: Action, acts: seq<Action>): (r: seq<Action>)
    ensures |r| == |acts| + 1
    ensures multiset(r) == multiset(acts) + multiset{a}
  {
    if acts == [] then [a]
    else if a.order <= acts[0].order then [a] + acts
    else
      assert [acts[0]] + acts[1..] == acts;
      [acts[0]] + Insert(a, acts[1..])
  }

  lemma {:induction false} InsertSorted(a: Action, acts: seq<Action>)
    requires SortedByOrder(acts)
    ensures SortedByOrder(Insert(a, acts))
  {
    if acts != [] && a.order > acts[0].order {
      InsertSorted(a, acts[1..]);
      var rest := Insert(a, acts[1..]);
      forall k | 0 <= k < |rest| ensures acts[0].order <= rest[k].order {
        assert rest[k] in multiset(acts[1..]) + multiset{a};
      }
    }
  }

  /** `[...actions].sort((a, b) => a.order - b.order)`: insertion sort, stable
      as `Array.prototype.sort` is. */
  function SortByOrder(acts: seq<Action>): (r: seq<Action>)
    ensures |r| == |acts|
    ensures SortedByOrder(r)
    ensures multiset(r) == multiset(acts)
  {
    if acts == [] then []
    else
      assert [acts[0]] + acts[1..] == acts;
      var rest := SortByOrder(acts[1..]);
      InsertSorted(acts[0], rest);
      Insert(acts[0], rest)
  }

  lemma {:induction false} WithOrderInsert(a: Action, acts: seq<Action>, x: real)
    requires SortedByOrder(acts)
    ensures WithOrder(Insert(a, acts), x) == if a.order == x then [a] + WithOrder(acts, x) else WithOrder(acts, x)
  {
    if acts != [] && a.order > acts[0].order {
      WithOrderInsert(a, acts[1..], x);
      var rest := Insert(a, acts[1..]);
      assert ([acts[0]] + rest)[1..] == rest;
      assert acts[0].order == x ==> a.order != x;
    } else if acts != [] {
      assert ([a] + acts)[1..] == acts;
    }
  }

  /** Sorting keeps the actions of equal order in their original sequence. */
  lemma {:induction false} SortByOrderStable(acts: seq<Action>, x: real)
    ensures WithOrder(SortByOrder(acts), x) == WithOrder(acts, x)
  {
    if acts != [] {
      SortByOrderStable(acts[1..], x);
      WithOrderInsert(acts[0], SortByOrder(acts[1..]), x);
    }
  }

  // ---------------------------------------------------------------------------
  // Running the actions
  // ---------------------------------------------------------------------------

  /** What running actions did: the message that escaped a catch block, if any,
      the entries logged and the new counts of writes and actions attempted. */
  datatype ActionRun = ActionRun(abort: Option<string>, added: seq<Entry>, writes: nat, acted: nat)

  /** How the `n`-th action run turns out: `ActionExecutor.execute` on a stored
      action, in the world of that run. */
  type Runner = (nat, Action) -> Result<Value, string>

  function Outcomes(env: Oracles, owner: Option<string>, data: Value): Runner {
    (n: nat, a: Action) => OutcomeAt(env, owner, data, n, a)
  }

  /** The `n`-th action run, `a`, with the owner's address `owner` and trigger data `data`. */
  function OutcomeAt(env: Oracles, owner: Option<string>, data: Value, n: nat, a: Action): Result<Value, string> {
    KindOutcome(a.kind, a.config, data, owner, env.world(n))
  }

  /** `run` agrees with `ActionExecutor.execute` wherever the latter is looked at. */
  ghost predicate Performs(run: Runner, env: Oracles, owner: Option<string>, data: Value) {
    forall n: nat, a: Action {:trigger OutcomeAt(env, owner, data, n, a)} :: run(n, a) == OutcomeAt(env, owner, data, n, a)
  }

  /** One action inside its try/catch: a success is logged and saved; a failure
      of the action or of that save is logged as a failed step and saved, and a
      failure of this last save escapes the loop. */
  function ActionStep(env: Oracles, run: Runner, writes: nat, acted: nat, a: Action): (r: ActionRun)
    ensures r.acted == acted + 1 && writes < r.writes
    ensures r.abort.None? && env.save(writes).None? ==> r.writes == writes + 1
    ensures env.save(writes).None? && env.save(writes + 1).None? ==> r.abort.None? && r.writes == writes + 1
    ensures env.save(writes).None? ==>
              r.added == match run(acted, a)
                         case Success(v) => [ActionDone(a, v)]
                         case Failure(m) => [ActionFailed(a, m)]
  {
    Settle(env, writes, acted, a, run(acted, a))
  }

  /** The catch blocks around an action whose result is `result`. */
  function Settle(env: Oracles, writes: nat, acted: nat, a: Action, result: Result<Value, string>): ActionRun {
    match result
    case Success(v) =>
      if env.save(writes).None? then ActionRun(None, [ActionDone(a, v)], writes + 1, acted + 1)
      else ActionRun(env.save(writes + 1), [ActionDone(a, v), ActionFailed(a, env.save(writes).value)], writes + 2, acted + 1)
    case Failure(m) =>
      ActionRun(env.save(writes), [ActionFailed(a, m)], writes + 1, acted + 1)
  }

  /** The actions from index `i` on, in sequence, until one aborts. */
  function ActionsFrom(env: Oracles, run: Runner, writes: nat, acted: nat, acts: seq<Action>, i: nat): (r: ActionRun)
    requires i <= |acts|
    ensures r.writes >= writes && r.acted >= acted
    decreases |acts| - i
  {
    if i == |acts| then ActionRun(None, [], writes, acted)
    else
      var first := ActionStep(env, run, writes, acted, acts[i]);
      if first.abort.Some? then first
      else
        var rest := ActionsFrom(env, run, first.writes, first.acted, acts, i + 1);
        ActionRun(rest.abort, first.added + rest.added, rest.writes, rest.acted)
  }

  /** `e` is the step logged for action `a`, run as the `acted`-th action. */
  predicate LoggedAction(e: Entry, run: Runner, acted: nat, a: Action) {
    && e.kind == ActionExecute
    && e.input == Obj(map["action" := ActionDoc(a)])
    && (e.status == StepSuccess <==> run(acted, a).Success?)
  }

  /** While saves succeed nothing aborts: every action runs once, with one
      save each, and logs one step. */
  lemma {:induction false} EveryActionRuns(env: Oracles, run: Runner, writes: nat, acted: nat, acts: seq<Action>, i: nat)
    requires i <= |acts|
    requires forall n :: writes <= n ==> env.save(n).None?
    ensures var r := ActionsFrom(env, run, writes, acted, acts, i);
            && r.abort.None? && r.writes == writes + (|acts| - i) && r.acted == acted + (|acts| - i)
            && |r.added| == |acts| - i
    decreases |acts| - i
  {
    if i < |acts| {
      assert env.save(writes).None? && env.save(writes + 1).None?;
      EveryActionRuns(env, run, writes + 1, acted + 1, acts, i + 1);
    }
  }

  /** A failing action does not stop the others: while saves succeed, the k-th
      step logged is that of the k-th action, and its status is the action's outcome. */
  lemma {:induction false} EveryActionLogged(env: Oracles, run: Runner, writes: nat, acted: nat, acts: seq<Action>, i: nat)
    requires i <= |acts|
    requires forall n :: writes <= n ==> env.save(n).None?
    ensures var r := ActionsFrom(env, run, writes, acted, acts, i);
            forall k :: 0 <= k < |r.added| ==> k < |acts| - i && LoggedAction(r.added[k], run, acted + k, acts[i + k])
    decreases |acts| - i
  {
    if i < |acts| {
      var head := ActionsHead(env, run, writes, acted, acts, i);
      EveryActionRuns(env, run, writes + 1, acted + 1, acts, i + 1);
      EveryActionLogged(env, run, writes + 1, acted + 1, acts, i + 1);
      var rest := ActionsFrom(env, run, writes + 1, acted + 1, acts, i + 1);
      LoggedShift(run, acted, acts, i, head, rest.added);
    }
  }

  /** While saves succeed, the actions from `i` on log the step of action `i`
      followed by what the actions after it log. */
  lemma ActionsHead(env: Oracles, run: Runner, writes: nat, acted: nat, acts: seq<Action>, i: nat) returns (head: Entry)
    requires i < |acts|
    requires forall n :: writes <= n ==> env.save(n).None?
    ensures LoggedAction(head, run, acted, acts[i])
    ensures ActionsFrom(env, run, writes, acted, acts, i).added
            == [head] + ActionsFrom(env, run, writes + 1, acted + 1, acts, i + 1).added
  {
    var first := ActionStep(env, run, writes, acted, acts[i]);
    assert env.save(writes).None? && env.save(writes + 1).None?;
    ActionStepLogged(env, run, writes, acted, acts[i]);
    head := first.added[0];
  }

  /** An action whose save succeeds logs one step, that of the action. */
  lemma ActionStepLogged(env: Oracles, run: Runner, writes: nat, acted: nat, a: Action)
    requires env.save(writes).None?
    ensures var r := ActionStep(env, run, writes, acted, a);
            r.added == [r.added[0]] && LoggedAction(r.added[0], run, acted, a)
  {
  }

  lemma LoggedShift(run: Runner, acted: nat, acts: seq<Action>, i: nat, head: Entry, rest: seq<Entry>)
    requires i < |acts| && |rest| == |acts| - i - 1
    requires LoggedAction(head, run, acted, acts[i])
    requires forall k :: 0 <= k < |rest| ==> LoggedAction(rest[k], run, acted + 1 + k, acts[i + 1 + k])
    ensures forall k :: 0 <= k < |rest| + 1 ==> LoggedAction(([head] + rest)[k], run, acted + k, acts[i + k])
  {
    forall k | 0 <= k < |rest| + 1
      ensures LoggedAction(([head] + rest)[k], run, acted + k, acts[i + k])
    {
      if k > 0 {
        assert ([head] + rest)[k] == rest[k - 1];
        assert acted + 1 + (k - 1) == acted + k && i + 1 + (k - 1) == i + k;
      }
    }
  }

  // ---------------------------------------------------------------------------
  // A whole run
  // ---------------------------------------------------------------------------

  /** The counts of oracle calls made so far. */
  datatype Calls = Calls(writes: nat, classified: nat, acted: nat)

  /** How a run of a created execution ends: its final status, the entries it
      logged, the message it throws, and whether the usage update was written. */
  datatype Run = Run(status: ExecutionStatus, added: seq<Entry>, error: Option<string>, counted: bool)

  /** The inner catch of `execute`: the record is marked failed, a failed step
      is logged and saved, and the error is rethrown, or the save's own error if
      that save fails. */
  function Failing(env: Oracles, writes: nat, added: seq<Entry>, msg: string): (r: Run)
    ensures r.status == Failed && r.error.Some? && !r.counted
    ensures r.added == added + [RunFailed(msg)]
    ensures env.save(writes).None? ==> r.error == Some(msg)
  {
    Run(Failed, added + [RunFailed(msg)], Some(if env.save(writes).Some? then env.save(writes).value else msg), false)
  }

  /** Everything `execute` does after the execution record is created. */
  function RunOutcome(env: Oracles, calls: Calls, owner: Option<string>, wf: Workflow, data: Value): Run {
    AfterConditions(env, ConditionsPhase(env, Judges(env, data), calls.writes, calls.classified, wf.conditions, data),
                    Outcomes(env, owner, data), calls.acted, SortByOrder(wf.actions))
  }

  /** The rest of the run once evaluateConditions returned or threw: a failed
      check ends the run completed, a passed one runs the actions, marks the
      record completed, saves it and writes the usage update. */
  function AfterConditions(env: Oracles, cp: Phase, run: Runner, acted: nat, acts: seq<Action>): Run {
    After(cp.added, Concluded(env, cp.outcome, cp.writes, run, acted, acts))
  }

  /** The rest of the run given what evaluateConditions returned or threw. */
  function Concluded(env: Oracles, outcome: Result<bool, string>, writes: nat, run: Runner, acted: nat, acts: seq<Action>): Run {
    match outcome
    case Failure(m) => Failing(env, writes, [], m)
    case Success(pass) =>
      if !pass then
        if env.save(writes).Some? then Failing(env, writes + 1, [], env.save(writes).value)
        else Run(Completed, [], None, false)
      else Passed(env, run, writes, acted, acts)
  }

  /** `r` with the entries `acc` logged before it. */
  function After(acc: seq<Entry>, r: Run): Run {
    Run(r.status, acc + r.added, r.error, r.counted)
  }

  /** The run once the conditions passed: the actions, then the completion
      save and the usage update; each throw lands in the inner catch. */
  function Passed(env: Oracles, run: Runner, writes: nat, acted: nat, acts: seq<Action>): Run {
    var ar := ActionsFrom(env, run, writes, acted, acts, 0);
    After(ar.added, Closing(env, ar.abort, ar.writes))
  }

  /** After the actions: a throw out of the loop lands in the inner catch;
      otherwise the record is marked completed and saved, and the usage update
      is written, each save throwing into the inner catch when it fails. */
  function Closing(env: Oracles, abort: Option<string>, writes: nat): Run {
    if abort.Some? then Failing(env, writes, [], abort.value)
    else if env.save(writes).Some? then Failing(env, writes + 1, [], env.save(writes).value)
    else if env.save(writes + 1).Some? then Failing(env, writes + 2, [], env.save(writes + 1).value)
    else Run(Completed, [], None, true)
  }

  /** A run ends completed exactly when it throws nothing, failed otherwise, and
      usage is counted exactly when the conditions passed and nothing was thrown. */
  lemma RunEndsCompletedOrFailed(env: Oracles, cp: Phase, run: Runner, acted: nat, acts: seq<Action>)
    ensures var r := AfterConditions(env, cp, run, acted, acts);
            && (r.status == Completed || r.status == Failed)
            && (r.status == Completed <==> r.error.None?)
            && (r.counted <==> cp.outcome == Success(true) && r.error.None?)
  {
  }

  /** The conditions of a run whose writes all succeed never throw. */
  lemma ReliableConditions(env: Oracles, judge: Judge, writes: nat, classified: nat, conds: seq<Condition>, data: Value)
    requires Counts(judge)
    requires forall n :: writes <= n ==> env.save(n).None?
    ensures var cp := ConditionsPhase(env, judge, writes, classified, conds, data);
            cp.outcome.Success? && cp.writes >= writes
  {
    if conds != [] {
      ConditionsFromCounts(judge, writes, classified, conds, 0);
      var run := ConditionsFrom(judge, writes, classified, conds, 0);
      assert env.save(run.writes).None?;
    }
  }

  /** When every write succeeds, a run completes; it counts usage exactly when
      the conditions pass, and then logs one action step per action in sequence,
      whatever the actions' own outcomes. */
  lemma {:induction false} ReliableRun(env: Oracles, cp: Phase, run: Runner, acted: nat, acts: seq<Action>)
    requires cp.outcome.Success?
    requires forall n :: cp.writes <= n ==> env.save(n).None?
    ensures var r := AfterConditions(env, cp, run, acted, acts);
            && r.status == Completed && r.error.None?
            && (r.counted <==> cp.outcome.value)
            && (!cp.outcome.value ==> r.added == cp.added)
            && (cp.outcome.value ==>
                  && |r.added| == |cp.added| + |acts|
                  && r.added[..|cp.added|] == cp.added
                  && forall k :: 0 <= k < |acts| ==> LoggedAction(r.added[|cp.added| + k], run, acted + k, acts[k]))
  {
    if cp.outcome.value {
      EveryActionRuns(env, run, cp.writes, acted, acts, 0);
      EveryActionLogged(env, run, cp.writes, acted, acts, 0);
      var ar := ActionsFrom(env, run, cp.writes, acted, acts, 0);
      assert env.save(ar.writes).None? && env.save(ar.writes + 1).None?;
      var r := AfterConditions(env, cp, run, acted, acts);
      assert r.added == cp.added + ar.added;
      forall k | 0 <= k < |acts|
        ensures LoggedAction(r.added[|cp.added| + k], run, acted + k, acts[k])
      {
        assert r.added[|cp.added| + k] == ar.added[k];
      }
    }
  }

  /** The whole run over a store whose writes all succeed: it completes, and
      counts usage exactly when the conditions pass. */
  lemma ReliableStoreRun(env: Oracles, calls: Calls, owner: Option<string>, wf: Workflow, data: Value)
    requires forall n :: calls.writes <= n ==> env.save(n).None?
    ensures var r := RunOutcome(env, calls, owner, wf, data);
            && r.status == Completed && r.error.None?
            && (r.counted <==> ConditionsPhase(env, Judges(env, data), calls.writes, calls.classified, wf.conditions, data).outcome == Success(true))
  {
    JudgesSound(env, data);
    ReliableConditions(env, Judges(env, data), calls.writes, calls.classified, wf.conditions, data);
    var cp := ConditionsPhase(env, Judges(env, data), calls.writes, calls.classified, wf.conditions, data);
    var run, acts := Outcomes(env, owner, data), SortByOrder(wf.actions);
    assert RunOutcome(env, calls, owner, wf, data) == AfterConditions(env, cp, run, calls.acted, acts);
    ReliableRun(env, cp, run, calls.acted, acts);
  }

  /** `p` with the entries `acc` logged before it. */
  function Resume(acc: seq<Entry>, p: Probe): Probe {
    Probe(p.pass, acc + p.added, p.writes, p.classified)
  }

  /** One turn of the condition loop. */
  lemma ConditionsUnfold(judge: Judge, writes: nat, classified: nat, conds: seq<Condition>, i: nat, acc: seq<Entry>)
    requires i < |conds|
    ensures var first := judge(writes, classified, conds[i]);
            Resume(acc, ConditionsFrom(judge, writes, classified, conds, i))
            == if first.pass then Resume(acc + first.added, ConditionsFrom(judge, first.writes, first.classified, conds, i + 1))
               else Resume(acc, first)
  {
    var first := judge(writes, classified, conds[i]);
    if first.pass {
      var rest := ConditionsFrom(judge, first.writes, first.classified, conds, i + 1);
      assert acc + (first.added + rest.added) == (acc + first.added) + rest.added;
    }
  }

  /** `r` with the entries `acc` logged before it. */
  function ResumeRun(acc: seq<Entry>, r: ActionRun): ActionRun {
    ActionRun(r.abort, acc + r.added, r.writes, r.acted)
  }

  /** One turn of the action loop. */
  lemma ActionsUnfold(env: Oracles, run: Runner, writes: nat, acted: nat, acts: seq<Action>, i: nat, acc: seq<Entry>)
    requires i < |acts|
    ensures var first := ActionStep(env, run, writes, acted, acts[i]);
            ResumeRun(acc, ActionsFrom(env, run, writes, acted, acts, i))
            == if first.abort.Some? then ResumeRun(acc, first)
               else ResumeRun(acc + first.added, ActionsFrom(env, run, first.writes, first.acted, acts, i + 1))
  {
    var first := ActionStep(env, run, writes, acted, acts[i]);
    if first.abort.None? {
      var rest := ActionsFrom(env, run, first.writes, first.acted, acts, i + 1);
      assert acc + (first.added + rest.added) == (acc + first.added) + rest.added;
    }
  }

  /** `Organization.findByIdAndUpdate(id, {$inc: {'usage.workflowsExecuted': 1}})`
      once the write went through: the counter of that organization, if it
      exists, goes up by one, and nothing else changes. */
  function Bumped(orgs: map<string, Organization>, id: string): (r: map<string, Organization>)
    ensures r.Keys == orgs.Keys
    ensures id in orgs ==> r[id].usage.workflowsExecuted == orgs[id].usage.workflowsExecuted + 1
    ensures id in orgs ==> r[id] == orgs[id].(usage := orgs[id].usage.(workflowsExecuted := r[id].usage.workflowsExecuted))
    ensures forall k :: k in orgs && k != id ==> r[k] == orgs[k]
  {
    if id in orgs then
      var o := orgs[id];
      orgs[id := o.(usage := o.usage.(workflowsExecuted := o.usage.workflowsExecuted + 1))]
    else orgs
  }

  lemma JudgesEvaluate(env: Oracles, data: Value)
    ensures Evaluates(Judges(env, data), env, data)
  {
  }

  lemma OutcomesPerform(env: Oracles, owner: Option<string>, data: Value)
    ensures Performs(Outcomes(env, owner, data), env, owner, data)
  {
  }

  /** The first execution record with this id in this organization. */
  function FindIn(xs: seq<Execution>, id: string, organizationId: string): (r: Option<nat>)
    ensures r.Some? ==> r.value < |xs| && xs[r.value].id == id && xs[r.value].organizationId == organizationId
    ensures r.None? ==> forall k :: 0 <= k < |xs| ==> !(xs[k].id == id && xs[k].organizationId == organizationId)
  {
    FirstIndex(xs, (x: Execution) => x.id == id && x.organizationId == organizationId, 0)
  }

  // ---------------------------------------------------------------------------
  // The engine
  // ---------------------------------------------------------------------------

  class Engine {
    const db: Db
    const env: Oracles
    /** The execution records, in order of creation. */
    var executions: seq<Execution>
    /** Clock readings taken so far. */
    var ticks: nat
    var calls: Calls

    constructor (db: Db, env: Oracles)
      ensures this.db == db && this.env == env
      ensures executions == [] && ticks == 0 && calls == Calls(0, 0, 0)
    {
      this.db := db;
      this.env := env;
      executions := [];
      ticks := 0;
      calls := Calls(0, 0, 0);
    }

    /** `Date.now()`. */
    method Now() returns (t: int)
      modifies this
      ensures t == env.clock(old(ticks)) && ticks == old(ticks) + 1
      ensures calls == old(calls) && executions == old(executions)
    {
      t := env.clock(ticks);
      ticks := ticks + 1;
    }

    /** One database write; `Some(message)` when it throws. */
    method Write() returns (failure: Option<string>)
      modifies this
      ensures failure == env.save(old(calls.writes)) && calls == old(calls).(writes := old(calls.writes) + 1)
      ensures ticks == old(ticks) && executions == old(executions)
    {
      failure := env.save(calls.writes);
      calls := calls.(writes := calls.writes + 1);
    }

    /** Logs a failed AI step and saves; a failure of that save is swallowed by
        evaluateSingleCondition. */
    method LogAiFailure(e: Execution, text: Value, msg: string, start: int)
      modifies this, e
      ensures Extends(e.steps, old(e.steps), [AiFailed(text, msg)])
      ensures calls == old(calls).(writes := old(calls.writes) + 1) && executions == old(executions)
      ensures e.status == old(e.status) && e.startedAt == old(e.startedAt)
      ensures e.completedAt == old(e.completedAt) && e.duration == old(e.duration)
    {
      Log(e, AiFailed(text, msg), start);
      var _ := Write();
    }

    /** `execution.steps.push(...)` of the step for `en`, timed from `start`. */
    method Log(e: Execution, en: Entry, start: int)
      modifies this, e
      ensures Extends(e.steps, old(e.steps), [en])
      ensures calls == old(calls) && executions == old(executions)
      ensures e.status == old(e.status) && e.startedAt == old(e.startedAt)
      ensures e.completedAt == old(e.completedAt) && e.duration == old(e.duration)
    {
      var t := Now();
      var st := Timed(en, t - start, t);
      ExtendsOne(e.steps, st);
      e.Push(st);
    }

    /** evaluateIntentCondition. */
    method EvaluateIntentCondition(e: Execution, text: Value, c: Condition) returns (pass: bool)
      modifies this, e
      ensures var p := IntentOutcome(env, old(calls.writes), old(calls.classified), text, c);
              && pass == p.pass && Extends(e.steps, old(e.steps), p.added)
              && calls == old(calls).(writes := p.writes, classified := p.classified)
      ensures executions == old(executions)
      ensures e.status == old(e.status) && e.startedAt == old(e.startedAt)
      ensures e.completedAt == old(e.completedAt) && e.duration == old(e.duration)
    {
      var start := Now();
      var classification := env.classify(calls.classified, text);
      calls := calls.(classified := calls.classified + 1);
      match classification
      case Failure(msg) =>
        LogAiFailure(e, text, msg, start);
        pass := false;
      case Success(meta) =>
        var created := Write();
        if created.Some? {
          LogAiFailure(e, text, created.value, start);
          pass := false;
        } else {
          ghost var before := e.steps;
          Log(e, AiPassed(text, c, meta), start);
          var saved := Write();
          if saved.Some? {
            ghost var middle := e.steps;
            LogAiFailure(e, text, saved.value, start);
            ExtendsTrans(before, middle, e.steps, [AiPassed(text, c, meta)], [AiFailed(text, saved.value)]);
            pass := false;
          } else {
            var intentMatches := StrictEquals(Str(meta.intent), c.value);
            var meetsConfidence := if c.confidence.Some? && c.confidence.value != 0.0 then meta.confidence >= c.confidence.value else true;
            pass := intentMatches && meetsConfidence;
          }
        }
    }
  
    /** evaluateSingleCondition. */
    method EvaluateSingleCondition(e: Execution, c: Condition, data: Value) returns (pass: bool)
      modifies this, e
      ensures var p := SingleOutcome(env, old(calls.writes), old(calls.classified), c, data);
              && pass == p.pass && Extends(e.steps, old(e.steps), p.added)
              && calls == old(calls).(writes := p.writes, classified := p.classified)
      ensures executions == old(executions)
      ensures e.status == old(e.status) && e.startedAt == old(e.startedAt)
      ensures e.completedAt == old(e.completedAt) && e.duration == old(e.duration)
    {
      var fieldValue := GetPath(data, c.field);
      match c.operator
      case EqualsOp =>
        ExtendsNone(e.steps);
        pass := StrictEquals(fieldValue, c.value);
      case Contains =>
        ExtendsNone(e.steps);
        pass := Includes(Lower(ToStr(fieldValue)), Lower(ToStr(c.value)));
      case GreaterThan =>
        ExtendsNone(e.steps);
        var a, b := ToNum(fieldValue), ToNum(c.value);
        pass := a.Some? && b.Some? && a.value > b.value;
      case LessThan =>
        ExtendsNone(e.steps);
        var a, b := ToNum(fieldValue), ToNum(c.value);
        pass := a.Some? && b.Some? && a.value < b.value;
      case MatchesIntent =>
        pass := EvaluateIntentCondition(e, fieldValue, c);
    }

    /** The loop of evaluateConditions: it stops at the first condition that fails. */
    method EvaluateEach(e: Execution, conds: seq<Condition>, data: Value, ghost judge: Judge) returns (allPass: bool)
      requires Evaluates(judge, env, data)
      modifies this, e
      ensures var p := ConditionsFrom(judge, old(calls.writes), old(calls.classified), conds, 0);
              && allPass == p.pass && Extends(e.steps, old(e.steps), p.added)
              && calls == old(calls).(writes := p.writes, classified := p.classified)
      ensures executions == old(executions)
      ensures e.status == old(e.status) && e.startedAt == old(e.startedAt)
      ensures e.completedAt == old(e.completedAt) && e.duration == old(e.duration)
    {
      ghost var w0, c0, s0 := calls.writes, calls.classified, e.steps;
      ghost var added: seq<Entry> := [];
      ExtendsNone(e.steps);
      allPass := true;
      var i := 0;
      while i < |conds|
        invariant 0 <= i <= |conds|
        invariant calls.acted == old(calls.acted) && executions == old(executions)
        invariant e.status == old(e.status) && e.startedAt == old(e.startedAt)
        invariant e.completedAt == old(e.completedAt) && e.duration == old(e.duration)
        invariant allPass
        invariant Extends(e.steps, s0, added)
        invariant ConditionsFrom(judge, w0, c0, conds, 0)
                  == Resume(added, ConditionsFrom(judge, calls.writes, calls.classified, conds, i))
        decreases |conds| - i
      {
        ghost var before := e.steps;
        ghost var first := SingleOutcome(env, calls.writes, calls.classified, conds[i], data);
        ConditionsUnfold(judge, calls.writes, calls.classified, conds, i, added);
        var pass := EvaluateSingleCondition(e, conds[i], data);
        ExtendsTrans(s0, before, e.steps, added, first.added);
        added := added + first.added;
        if !pass {
          allPass := false;
          break;
        }
        i := i + 1;
      }
      if allPass {
        assert added + [] == added;
      }
    }

    /** evaluateConditions: no conditions pass at once; otherwise the verdict is
        logged as a condition-check step and saved, and a failed save is logged
        as a failed condition-check step, saved again and thrown. */
    method EvaluateConditions(e: Execution, conds: seq<Condition>, data: Value, ghost judge: Judge)
      returns (outcome: Result<bool, string>)
      requires Evaluates(judge, env, data)
      modifies this, e
      ensures var p := ConditionsPhase(env, judge, old(calls.writes), old(calls.classified), conds, data);
              && outcome == p.outcome && Extends(e.steps, old(e.steps), p.added)
              && calls == old(calls).(writes := p.writes, classified := p.classified)
      ensures executions == old(executions)
      ensures e.status == old(e.status) && e.startedAt == old(e.startedAt)
      ensures e.completedAt == old(e.completedAt) && e.duration == old(e.duration)
    {
      if conds == [] {
        ExtendsNone(e.steps);
        return Success(true);
      }
      var start := Now();
      ghost var s0 := e.steps;
      var allPass := EvaluateEach(e, conds, data, judge);
      ghost var run := ConditionsFrom(judge, old(calls.writes), old(calls.classified), conds, 0);
      ghost var s1 := e.steps;
      outcome := LogConditionCheck(e, conds, data, allPass, start);
      ExtendsTrans(s0, s1, e.steps, run.added, CheckEntries(env.save(run.writes), conds, data, allPass));
    }

    /** The end of evaluateConditions: the verdict is logged and saved; a failed
        save is logged as a failed condition-check step, saved again and thrown. */
    method LogConditionCheck(e: Execution, conds: seq<Condition>, data: Value, allPass: bool, start: int)
      returns (outcome: Result<bool, string>)
      modifies this, e
      ensures var msg := env.save(old(calls.writes));
              && outcome == (if msg.None? then Success(allPass)
                             else Failure(if env.save(old(calls.writes) + 1).Some? then env.save(old(calls.writes) + 1).value
                                          else msg.value))
              && Extends(e.steps, old(e.steps), CheckEntries(msg, conds, data, allPass))
              && calls == old(calls).(writes := old(calls.writes) + (if msg.None? then 1 else 2))
      ensures executions == old(executions)
      ensures e.status == old(e.status) && e.startedAt == old(e.startedAt)
      ensures e.completedAt == old(e.completedAt) && e.duration == old(e.duration)
    {
      ghost var s0 := e.steps;
      Log(e, ConditionChecked(conds, data, allPass), start);
      var saved := Write();
      if saved.None? {
        outcome := Success(allPass);
      } else {
        ghost var s1 := e.steps;
        Log(e, ConditionCheckFailed(conds, saved.value), start);
        ExtendsTrans(s0, s1, e.steps, [ConditionChecked(conds, data, allPass)], [ConditionCheckFailed(conds, saved.value)]);
        var again := Write();
        outcome := Failure(if again.Some? then again.value else saved.value);
      }
    }
  
    /** One action inside its try/catch in executeActions. */
    method RunAction(e: Execution, a: Action, data: Value, owner: Option<string>, ghost run: Runner)
      returns (abort: Option<string>)
      requires Performs(run, env, owner, data)
      modifies this, e
      ensures var r := ActionStep(env, run, old(calls.writes), old(calls.acted), a);
              && abort == r.abort && Extends(e.steps, old(e.steps), r.added)
              && calls == old(calls).(writes := r.writes, acted := r.acted)
      ensures executions == old(executions)
      ensures e.status == old(e.status) && e.startedAt == old(e.startedAt)
      ensures e.completedAt == old(e.completedAt) && e.duration == old(e.duration)
    {
      var stepStart := Now();
      var result := ActionExecutor.Execute(a.kind.Name(), a.config, data, owner, env.world(calls.acted));
      StoredKindOutcome(a.kind, a.config, data, owner, env.world(calls.acted));
      assert result == OutcomeAt(env, owner, data, calls.acted, a);
      calls := calls.(acted := calls.acted + 1);
      abort := SettleAction(e, a, result, stepStart);
    }

    /** The logging and saving around one action whose result is `result`. */
    method SettleAction(e: Execution, a: Action, result: Result<Value, string>, stepStart: int) returns (abort: Option<string>)
      modifies this, e
      ensures var r := Settle(env, old(calls.writes), old(calls.acted), a, result);
              && abort == r.abort && Extends(e.steps, old(e.steps), r.added)
              && calls == old(calls).(writes := r.writes)
      ensures executions == old(executions)
      ensures e.status == old(e.status) && e.startedAt == old(e.startedAt)
      ensures e.completedAt == old(e.completedAt) && e.duration == old(e.duration)
    {
      abort := None;
      match result
      case Success(v) =>
        ghost var s0 := e.steps;
        Log(e, ActionDone(a, v), stepStart);
        var saved := Write();
        if saved.Some? {
          ghost var s1 := e.steps;
          Log(e, ActionFailed(a, saved.value), stepStart);
          ExtendsTrans(s0, s1, e.steps, [ActionDone(a, v)], [ActionFailed(a, saved.value)]);
          abort := Write();
        }
      case Failure(m) =>
        Log(e, ActionFailed(a, m), stepStart);
        abort := Write();
    }

    /** executeActions: the actions run in the given order, each logged and
        saved; a failing action does not stop the others, a failing save in a
        catch block does. */
    method ExecuteActions(e: Execution, acts: seq<Action>, data: Value, owner: Option<string>, ghost run: Runner)
      returns (abort: Option<string>)
      requires Performs(run, env, owner, data)
      modifies this, e
      ensures var r := ActionsFrom(env, run, old(calls.writes), old(calls.acted), acts, 0);
              && abort == r.abort && Extends(e.steps, old(e.steps), r.added)
              && calls == old(calls).(writes := r.writes, acted := r.acted)
      ensures executions == old(executions)
      ensures e.status == old(e.status) && e.startedAt == old(e.startedAt)
      ensures e.completedAt == old(e.completedAt) && e.duration == old(e.duration)
    {
      ghost var w0, a0, s0 := calls.writes, calls.acted, e.steps;
      ghost var added: seq<Entry> := [];
      ExtendsNone(e.steps);
      abort := None;
      var i := 0;
      while i < |acts|
        invariant 0 <= i <= |acts|
        invariant calls.classified == old(calls.classified) && executions == old(executions)
        invariant e.status == old(e.status) && e.startedAt == old(e.startedAt)
        invariant e.completedAt == old(e.completedAt) && e.duration == old(e.duration)
        invariant abort.None? && Extends(e.steps, s0, added)
        invariant ActionsFrom(env, run, w0, a0, acts, 0)
                  == ResumeRun(added, ActionsFrom(env, run, calls.writes, calls.acted, acts, i))
        decreases |acts| - i
      {
        ghost var before := e.steps;
        ghost var first := ActionStep(env, run, calls.writes, calls.acted, acts[i]);
        ActionsUnfold(env, run, calls.writes, calls.acted, acts, i, added);
        abort := RunAction(e, acts[i], data, owner, run);
        ExtendsTrans(s0, before, e.steps, added, first.added);
        added := added + first.added;
        if abort.Some? {
          return;
        }
        i := i + 1;
      }
      assert added + [] == added;
    }

    /** The inner catch of execute: the record is marked failed, a failed step
        is logged and saved, and the error is rethrown (or the save's own error). */
    method FailRun(e: Execution, msg: string, start: int) returns (failure: string)
      modifies this, e
      ensures failure == (if env.save(old(calls.writes)).Some? then env.save(old(calls.writes)).value else msg)
      ensures Extends(e.steps, old(e.steps), [RunFailed(msg)])
      ensures e.status == Failed && e.completedAt.Some? && e.duration.Some? && e.startedAt == old(e.startedAt)
      ensures calls == old(calls).(writes := old(calls.writes) + 1) && executions == old(executions)
    {
      var t := Now();
      var t2 := Now();
      e.Finish(Failed, t, t2 - start);
      var st := Timed(RunFailed(msg), 0, t);
      ExtendsOne(e.steps, st);
      e.Push(st);
      var saved := Write();
      failure := if saved.Some? then saved.value else msg;
    }

    /** Marks the record completed and saves it. */
    method Complete(e: Execution, start: int) returns (saved: Option<string>)
      modifies this, e
      ensures saved == env.save(old(calls.writes))
      ensures e.steps == old(e.steps) && e.status == Completed && e.startedAt == old(e.startedAt)
      ensures calls == old(calls).(writes := old(calls.writes) + 1) && executions == old(executions)
    {
      var t := Now();
      var t2 := Now();
      e.Finish(Completed, t, t2 - start);
      saved := Write();
    }

    /** The usage update after a completed run. */
    method BumpUsage(organizationId: string) returns (failure: Option<string>)
      modifies this, db
      ensures failure == env.save(old(calls.writes))
      ensures db.organizations == if failure.None? then Bumped(old(db.organizations), organizationId) else old(db.organizations)
      ensures db.users == old(db.users) && db.workflows == old(db.workflows) && db.invitations == old(db.invitations)
      ensures calls == old(calls).(writes := old(calls.writes) + 1) && executions == old(executions)
    {
      failure := Write();
      if failure.None? {
        db.organizations := Bumped(db.organizations, organizationId);
      }
    }

    /** Everything execute does once the record exists: conditions, actions,
        completion and the usage update, with the inner catch around them. */
    method RunWorkflow(e: Execution, wf: Workflow, data: Value, owner: Option<string>, start: int,
                       ghost judge: Judge, ghost run: Runner)
      returns (failure: Option<string>)
      requires Evaluates(judge, env, data) && Performs(run, env, owner, data)
      modifies this, e, db
      ensures var r := AfterConditions(env, ConditionsPhase(env, judge, old(calls.writes), old(calls.classified), wf.conditions, data),
                                       run, old(calls.acted), SortByOrder(wf.actions));
              && failure == r.error && e.status == r.status && Extends(e.steps, old(e.steps), r.added)
              && db.organizations == (if r.counted then Bumped(old(db.organizations), e.organizationId) else old(db.organizations))
      ensures e.startedAt == old(e.startedAt)
      ensures db.users == old(db.users) && db.workflows == old(db.workflows) && db.invitations == old(db.invitations)
      ensures executions == old(executions)
    {
      ghost var cp := ConditionsPhase(env, judge, calls.writes, calls.classified, wf.conditions, data);
      ghost var acted := calls.acted;
      ghost var s0 := e.steps;
      var outcome := EvaluateConditions(e, wf.conditions, data, judge);
      ghost var s1 := e.steps;
      failure := Conclude(e, outcome, SortByOrder(wf.actions), data, owner, start, run);
      ghost var r := Concluded(env, cp.outcome, cp.writes, run, acted, SortByOrder(wf.actions));
      ExtendsTrans(s0, s1, e.steps, cp.added, r.added);
    }

    /** What execute does once evaluateConditions returned `outcome`. */
    method Conclude(e: Execution, outcome: Result<bool, string>, acts: seq<Action>, data: Value, owner: Option<string>,
                    start: int, ghost run: Runner)
      returns (failure: Option<string>)
      requires Performs(run, env, owner, data)
      modifies this, e, db
      ensures var r := Concluded(env, outcome, old(calls.writes), run, old(calls.acted), acts);
              && failure == r.error && e.status == r.status && Extends(e.steps, old(e.steps), r.added)
              && db.organizations == (if r.counted then Bumped(old(db.organizations), e.organizationId) else old(db.organizations))
      ensures e.startedAt == old(e.startedAt)
      ensures db.users == old(db.users) && db.workflows == old(db.workflows) && db.invitations == old(db.invitations)
      ensures executions == old(executions)
    {
      match outcome
      case Failure(m) =>
        var f := FailRun(e, m, start);
        failure := Some(f);
      case Success(pass) =>
        if !pass {
          var saved := Complete(e, start);
          if saved.Some? {
            var f := FailRun(e, saved.value, start);
            failure := Some(f);
          } else {
            ExtendsNone(e.steps);
            failure := None;
          }
        } else {
          failure := ActThenComplete(e, acts, data, owner, start, run);
        }
    }

    /** The actions, the completion save and the usage update, once the conditions passed. */
    method ActThenComplete(e: Execution, acts: seq<Action>, data: Value, owner: Option<string>, start: int,
                           ghost run: Runner)
      returns (failure: Option<string>)
      requires Performs(run, env, owner, data)
      modifies this, e, db
      ensures var r := Passed(env, run, old(calls.writes), old(calls.acted), acts);
              && failure == r.error && e.status == r.status && Extends(e.steps, old(e.steps), r.added)
              && db.organizations == (if r.counted then Bumped(old(db.organizations), e.organizationId) else old(db.organizations))
      ensures e.startedAt == old(e.startedAt)
      ensures db.users == old(db.users) && db.workflows == old(db.workflows) && db.invitations == old(db.invitations)
      ensures executions == old(executions)
    {
      ghost var ar := ActionsFrom(env, run, calls.writes, calls.acted, acts, 0);
      ghost var s0 := e.steps;
      var abort := ExecuteActions(e, acts, data, owner, run);
      ghost var s1 := e.steps;
      failure := Close(e, abort, start);
      ExtendsTrans(s0, s1, e.steps, ar.added, Closing(env, abort, ar.writes).added);
    }

    /** The end of the try block of execute once the actions ran and returned
        `abort`, with the inner catch around it. */
    method Close(e: Execution, abort: Option<string>, start: int) returns (failure: Option<string>)
      modifies this, e, db
      ensures var r := Closing(env, abort, old(calls.writes));
              && failure == r.error && e.status == r.status && Extends(e.steps, old(e.steps), r.added)
              && db.organizations == (if r.counted then Bumped(old(db.organizations), e.organizationId) else old(db.organizations))
      ensures e.startedAt == old(e.startedAt)
      ensures db.users == old(db.users) && db.workflows == old(db.workflows) && db.invitations == old(db.invitations)
      ensures executions == old(executions)
    {
      if abort.Some? {
        var f := FailRun(e, abort.value, start);
        return Some(f);
      }
      var saved := Complete(e, start);
      if saved.Some? {
        var f := FailRun(e, saved.value, start);
        return Some(f);
      }
      var bumped := BumpUsage(e.organizationId);
      if bumped.Some? {
        var f := FailRun(e, bumped.value, start);
        failure := Some(f);
      } else {
        ExtendsNone(e.steps);
        failure := None;
      }
    }

    /** execute: a missing workflow gives 404 and an inactive one 400, before
        any record exists; a failed create throws with no record. Otherwise the
        new record, running with an empty log and the trigger data as given, is
        run to its end, and the run's error, if any, is rethrown. The owner's
        address is looked up once, as the e-mail actions would. */
    method Execute(workflowId: string, organizationId: string, data: Value, newId: string)
      returns (e: Execution?, err: Option<Err>)
      requires db.Valid()
      modifies this, db
      ensures db.users == old(db.users) && db.workflows == old(db.workflows) && db.invitations == old(db.invitations)
      ensures old(db.FindWorkflow(workflowId, organizationId)).None? ==> e == null && err == Some(AppError(404, "Workflow not found"))
      ensures var k := old(db.FindWorkflow(workflowId, organizationId));
              k.Some? && old(db.workflows)[k.value].status != Active ==> e == null && err == Some(AppError(400, "Workflow is not active"))
      ensures var k := old(db.FindWorkflow(workflowId, organizationId));
              k.Some? && old(db.workflows)[k.value].status == Active && env.save(old(calls.writes)).Some? ==>
                e == null && err == Some(Thrown(env.save(old(calls.writes)).value))
      ensures e == null ==> executions == old(executions) && db.organizations == old(db.organizations)
      ensures e == null ==> calls.acted == old(calls.acted) && calls.classified == old(calls.classified)
      ensures e != null ==>
                var wf := old(db.workflows)[old(db.FindWorkflow(workflowId, organizationId)).value];
                var r := RunOutcome(env, old(calls).(writes := old(calls.writes) + 1), old(db.OwnerEmail(organizationId)), wf, data);
                && old(db.FindWorkflow(workflowId, organizationId)).Some? && wf.status == Active && env.save(old(calls.writes)).None?
                && fresh(e) && executions == old(executions) + [e]
                && e.id == newId && e.organizationId == organizationId && e.workflowId == workflowId
                && e.triggerType == wf.trigger.kind.Name() && e.triggerData == data
                && e.status == r.status && Logged(e.steps, r.added)
                && err == (if r.error.Some? then Some(Thrown(r.error.value)) else None)
                && db.organizations == (if r.counted then Bumped(old(db.organizations), organizationId) else old(db.organizations))
    {
      var start := Now();
      var wf: Workflow;
      e, err, wf := Open(workflowId, organizationId, data, newId);
      if e == null {
        return;
      }
      var owner := db.OwnerEmail(organizationId);
      assert calls == old(calls).(writes := old(calls.writes) + 1);
      assert wf == old(db.workflows)[old(db.FindWorkflow(workflowId, organizationId)).value];
      assert owner == old(db.OwnerEmail(organizationId));
      err := RunCreated(e, wf, data, owner, start);
    }

    /** The guards and the creation of the record in execute. */
    method Open(workflowId: string, organizationId: string, data: Value, newId: string)
      returns (e: Execution?, err: Option<Err>, wf: Workflow)
      requires db.Valid()
      modifies this
      ensures db.FindWorkflow(workflowId, organizationId).None? ==> e == null && err == Some(AppError(404, "Workflow not found"))
      ensures var k := db.FindWorkflow(workflowId, organizationId);
              k.Some? && db.workflows[k.value].status != Active ==> e == null && err == Some(AppError(400, "Workflow is not active"))
      ensures var k := db.FindWorkflow(workflowId, organizationId);
              k.Some? && db.workflows[k.value].status == Active && env.save(old(calls.writes)).Some? ==>
                e == null && err == Some(Thrown(env.save(old(calls.writes)).value))
      ensures e == null ==> executions == old(executions) && calls.acted == old(calls.acted) && calls.classified == old(calls.classified)
      ensures var k := db.FindWorkflow(workflowId, organizationId);
              k.Some? && db.workflows[k.value].status == Active && env.save(old(calls.writes)).None? ==>
                && e != null && fresh(e) && executions == old(executions) + [e] && wf == db.workflows[k.value]
                && calls == old(calls).(writes := old(calls.writes) + 1) && err == None
                && e.id == newId && e.organizationId == organizationId && e.workflowId == workflowId
                && e.triggerType == wf.trigger.kind.Name() && e.triggerData == data
                && e.status == Running && e.steps == []
    {
      wf := Workflow("", "", "", None, "", None, Trigger(Manual, Null), [], [], false, None, None, None, Draft);
      var k := db.FindWorkflow(workflowId, organizationId);
      if k.None? {
        return null, Some(AppError(404, "Workflow not found")), wf;
      }
      wf := db.workflows[k.value];
      if wf.status != Active {
        return null, Some(AppError(400, "Workflow is not active")), wf;
      }
      db.StoredWorkflowIdentified(k.value);
      var created := Now();
      var saved := Write();
      if saved.Some? {
        return null, Some(Thrown(saved.value)), wf;
      }
      e := new Execution(newId, organizationId, workflowId, wf.trigger.kind.Name(), data, created);
      executions := executions + [e];
      err := None;
    }

    /** The run of a freshly created record, with the owner's address `owner`. */
    method RunCreated(e: Execution, wf: Workflow, data: Value, owner: Option<string>, start: int) returns (err: Option<Err>)
      requires e.steps == []
      modifies this, e, db
      ensures var r := RunOutcome(env, old(calls), owner, wf, data);
              && e.status == r.status && Logged(e.steps, r.added)
              && err == (if r.error.Some? then Some(Thrown(r.error.value)) else None)
              && db.organizations == (if r.counted then Bumped(old(db.organizations), e.organizationId) else old(db.organizations))
      ensures db.users == old(db.users) && db.workflows == old(db.workflows) && db.invitations == old(db.invitations)
      ensures executions == old(executions)
    {
      JudgesEvaluate(env, data);
      OutcomesPerform(env, owner, data);
      var failure := RunWorkflow(e, wf, data, owner, start, Judges(env, data), Outcomes(env, owner, data));
      assert e.steps[|old(e.steps)|..] == e.steps;
      err := if failure.Some? then Some(Thrown(failure.value)) else None;
    }

    /** getExecution: the record with this id in this organization, or 404. */
    function GetExecution(id: string, organizationId: string): (r: Result<Execution, Err>)
      reads this
      ensures r.Success? ==> r.value in executions && r.value.id == id && r.value.organizationId == organizationId
      ensures r.Failure? <==> forall x :: x in executions ==> !(x.id == id && x.organizationId == organizationId)
      ensures r.Failure? ==> r.error == AppError(404, "Execution not found")
    {
      match FindIn(executions, id, organizationId)
      case Some(k) => Success(executions[k])
      case None => Failure(AppError(404, "Execution not found"))
    }

    /** cancelExecution: only a running record of this organization can be
        cancelled; it is marked cancelled with its completion time and
        duration, and saved. A missing record gives 404, another status 400,
        and neither changes anything. When the save fails the error is
        rethrown and the stored record is still the running one. */
    method CancelExecution(id: string, organizationId: string) returns (e: Execution?, err: Option<Err>)
      modifies this, executions
      ensures executions == old(executions) && calls.acted == old(calls.acted) && calls.classified == old(calls.classified)
      ensures forall x :: x in executions && x != e ==> unchanged(x)
      ensures FindIn(executions, id, organizationId).None? ==>
                e == null && err == Some(AppError(404, "Execution not found")) && calls == old(calls)
      ensures var k := FindIn(executions, id, organizationId);
              k.Some? && old(executions[k.value].status) != Running ==>
                e == null && err == Some(AppError(400, "Only running executions can be cancelled")) && calls == old(calls)
      ensures var k := FindIn(executions, id, organizationId);
              k.Some? && old(executions[k.value].status) == Running && env.save(old(calls.writes)).None? ==>
                && e == executions[k.value] && e.status == Cancelled && err == None
                && e.completedAt == Some(env.clock(old(ticks)))
                && e.duration == Some(env.clock(old(ticks) + 1) - old(e.startedAt))
                && e.steps == old(e.steps) && e.startedAt == old(e.startedAt)
    ensures var k := FindIn(executions, id, organizationId);
              k.Some? && old(executions[k.value].status) == Running && env.save(old(calls.writes)).Some? ==>
                && e == null && err == Some(Thrown(env.save(old(calls.writes)).value))
                && unchanged(executions[k.value])
    {
      var k := FindIn(executions, id, organizationId);
      if k.None? {
        return null, Some(AppError(404, "Execution not found"));
      }
      e := executions[k.value];
      if e.status != Running {
        return null, Some(AppError(400, "Only running executions can be cancelled"));
      }
      var t := Now();
      var t2 := Now();
      var saved := Write();
      if saved.Some? {
        return null, Some(Thrown(saved.value));
      }
      e.Finish(Cancelled, t, t2 - e.startedAt);
      err := None;
    }
  }
}
