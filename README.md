# Workflow automation backend — a Dafny model

This project models the core of a multi-tenant workflow-automation backend.
An organization's users (owner, admin, member, viewer) write workflows, by hand
or from a natural-language description that an AI service parses. A workflow
is a trigger, AND-combined conditions (field comparisons and AI intent checks)
and ordered actions (e-mail, webhook, notification, log). Approved and
active workflows are run by the execution engine. Each run is recorded as an
`Execution` with an append-only step log and ends completed, failed or
cancelled.

The modules follow the backend's files:

- `JsValue`: the untyped JSON the engine coerces (`String(v)`, `Number(v)`,
  truthiness, optional property paths, `trim`, `toLowerCase`, `includes`).
- `Store`: the document collections and their `findOne` order.
- `Errors`: the errors a service raises. Only an `AppError` carries the HTTP
  status and message it is answered with; a schema validation error and
  anything else thrown are answered with 500 "Internal server error".
- `WorkflowTypes`, `WorkflowModel` and `ExecutionModel`: the record types and
  the schema casts with their defaults.
- `ActionExecutor`: one action, including the `{{path}}` template resolver.
- `ExecutionEngine`: a whole run and cancellation.
- `TriggerHandler`: webhook and manual triggers that queue a run.
- `WorkflowParser`: the validation of the AI's parsed workflow and the token
  count.
- `WorkflowService`: creation, approval, listing and status changes.
- `Validators`: the request schemas.
- `Rbac` and `Tenancy`: the role guards and the per-tenant query filter.
- `EnvConfig`: environment settings with defaults, read with `parseInt`.
- `Auth`: registration with the organization slug, sign-in, e-mail
  confirmation and password reset.
- `OrganizationController`: inviting, removing and re-ranking members.

Components that change state in place are classes over a shared `Store.Db`:

- `Engine`
- `Execution`
- `Handler`
- `Service`
- `AuthService`
- `OrganizationController`
- the tenancy `Request`

Their methods are proved against specification functions.

Things outside the process are parameters:

- The clock, every database write that may throw, the intent classifier, and
  the mail and HTTP transports are oracles indexed by how often they have been
  asked.
- Fresh ids, random tokens and the environment are passed in.

Where the written design and the code differ, the model follows the code:

- A workflow with no conditions logs no `condition_check` step.
- The trigger handler answers `null` or a generic error instead of
  distinguishing its failure causes.
- Activating a workflow does not check that it has actions.

## Model

| member | source | states |
|---|---|---|
| JsValue.Or | backend/src/services/workflow/ActionExecutor.ts:57-87 | `a \|\| b` is `a` when truthy and `b` otherwise |
| JsValue.Truthy | backend/src/services/workflow/ActionExecutor.ts:156 | JavaScript truthiness: `undefined`, `null`, `false`, `0` and `""` are falsy, everything else truthy (the JSON values modelled hold no `NaN`); `JsValue.Or` states what `||` makes of it |
| JsValue.ToStr | backend/src/services/workflow/ExecutionEngine.ts:202-204 | `String(v)`; `JsValue.NatToStr` and `JsValue.NatToStrRoundTrip` pin the rendering of whole numbers, `ActionExecutor.ShownKey` its use in templates |
| JsValue.StrToNum | backend/src/services/workflow/ExecutionEngine.ts:206-210 | `Number` of a string: trimmed, empty is 0, a decimal literal is its value, anything else is not a number; `JsValue.DigitStringIsNumber` pins digit strings |
| JsValue.ToNum | backend/src/services/workflow/ExecutionEngine.ts:206-210 | `Number(v)` for every JSON value; `JsValue.NumberOfRenderedNat` shows `Number(String(n))` is n |
| JsValue.Get | backend/src/services/workflow/ExecutionEngine.ts:359 | one optional property access `current?.[key]`: an object's own key, an array's index or `length`, a string's index or `length`, `undefined` otherwise; `JsValue.LookupFromNullish` shows nullish stays `undefined` |
| JsValue.GetPath | backend/src/services/workflow/ExecutionEngine.ts:358-360 | `getNestedValue`: the dot path split at "." and looked up key by key; `JsValue.SingleKeyPath`, `JsValue.LookupKeysAppend` and `JsValue.MissingIntermediateKey` pin it |
| JsValue.NatToStr | backend/src/services/workflow/ActionExecutor.ts:156 | `String(n)` of a natural number is a digit string without leading zero |
| JsValue.NatToStrRoundTrip | backend/src/services/workflow/ActionExecutor.ts:156 | reading the rendering of a natural number back gives the number |
| JsValue.Trim | backend/backend/src/models/Workflow.ts:51 | `trim()` cuts exactly the leading and the trailing run of ECMAScript whitespace: the result is the slice of the input between them, neither end of it is whitespace, and every character cut off is whitespace |
| JsValue.TrimUnchanged | backend/src/services/workflow/ActionExecutor.ts:154 | a string with no whitespace at either end is its own trim |
| JsValue.TrimIdempotent | backend/src/services/workflow/ActionExecutor.ts:154 | trimming twice is trimming once |
| JsValue.NumberOfRenderedNat | backend/src/services/workflow/ExecutionEngine.ts:206-210 | `Number(String(n))` is n for every natural number |
| JsValue.DigitStringIsNumber | backend/src/services/workflow/ExecutionEngine.ts:206-210 | `Number` of a digit string is its decimal value |
| JsValue.Lower | backend/src/services/workflow/ExecutionEngine.ts:202-204 | `toLowerCase()` keeps the length and lowers each ASCII capital |
| JsValue.LowerIdempotent | backend/src/services/workflow/ExecutionEngine.ts:202-204 | lowering twice is lowering once |
| JsValue.Includes | backend/src/services/workflow/ExecutionEngine.ts:202-204 | `includes` holds iff the needle occurs at some index |
| JsValue.Split | backend/src/services/workflow/ExecutionEngine.ts:359 | `split(sep)` gives at least one part, none holding the separator |
| JsValue.SplitWithoutSeparator | backend/src/services/workflow/ExecutionEngine.ts:359 | a string without the separator splits into itself alone |
| JsValue.SplitJoin | backend/src/services/workflow/ExecutionEngine.ts:359 | joining the parts with the separator gives back the original path |
| JsValue.SingleKeyPath | backend/src/services/workflow/ExecutionEngine.ts:358-360 | a path without dots is a single property access |
| JsValue.LookupKeysAppend | backend/src/services/workflow/ExecutionEngine.ts:358-360 | looking up a concatenation of key paths is looking up one after the other |
| JsValue.LookupFromNullish | backend/src/services/workflow/ExecutionEngine.ts:358-360 | once the lookup reaches `undefined` or `null`, every further key gives `undefined` (optional chaining) |
| JsValue.MissingIntermediateKey | backend/src/services/workflow/ExecutionEngine.ts:358-360 | a dot path whose intermediate key is missing resolves to `undefined` however many keys follow; the lookup never throws |
| Store.HashTokenInjective | backend/src/utils/crypto.ts:11-13 | the stored token hash matches exactly the token it was made from |
| Store.PasswordDigestInjective | backend/src/models/User.ts:87-104 | a stored password digest matches exactly the password it was made from |
| Store.FirstIndex | backend/src/models/User.ts:22-81 | `findOne`: the first record satisfying the query, none before it; none found only when no record satisfies it |
| Store.WellFormedAfterAppend | backend/backend/src/models/Workflow.ts:40-128 | storing a record that passed the schema keeps every stored workflow well formed |
| Store.WellFormedAfterUpdate | backend/backend/src/models/Workflow.ts:40-128 | replacing a stored workflow by a well-formed record keeps every stored workflow well formed |
| Store.Db.constructor | backend/backend/src/models/Workflow.ts:134 | the store starts empty |
| Store.Db.StoredWorkflowIdentified | backend/backend/src/models/Workflow.ts:42-47 | a stored workflow has an id and an owning organization |
| Store.Db.FindWorkflow | backend/backend/src/models/Workflow.ts:131 | a tenant-scoped lookup: the record found has this id and this organization; none only when no record has both |
| Store.Db.FindUserByEmail | backend/src/models/User.ts:24-31 | the user found has this address; none only when no user has it |
| Store.Db.FindMember | backend/src/models/User.ts:63-84 | the user found has this id and this organization; none only when no user has both |
| Store.Db.OwnerEmail | backend/src/services/workflow/ActionExecutor.ts:48-52 | an address is found exactly when the organization has an owner, and it is the address of the first such owner in store order, the one `findOne` returns |
| WorkflowTypes.ParseTriggerType | backend/backend/backend/src/types/workflow.types.ts:1-5 | a string names a trigger type iff it is one of the three enumeration values, and it then names exactly that one |
| WorkflowTypes.ParseConditionOperator | backend/backend/backend/src/types/workflow.types.ts:7-13 | a string names an operator iff it is one of the five enumeration values, and exactly that one |
| WorkflowTypes.ParseActionType | backend/backend/backend/src/types/workflow.types.ts:15-20 | a string names an action type iff it is one of the four enumeration values, and exactly that one |
| WorkflowTypes.ParseWorkflowStatus | backend/backend/backend/src/types/workflow.types.ts:22-27 | a string names a workflow status iff it is one of the four enumeration values, and exactly that one |
| WorkflowTypes.ParseExecutionStatus | backend/backend/backend/src/types/workflow.types.ts:29-34 | a string names an execution status iff it is one of the four enumeration values, and exactly that one |
| WorkflowTypes.ParseStepStatus | backend/backend/backend/src/types/workflow.types.ts:36-40 | a string names a step status iff it is one of the three enumeration values, and exactly that one |
| WorkflowTypes.ParseStepType | backend/backend/backend/src/types/workflow.types.ts:42-46 | a string names a step type iff it is one of the three enumeration values, and exactly that one |
| WorkflowTypes.ParseUserRole | backend/backend/backend/src/types/workflow.types.ts:48-53 | a string names a role iff it is one of the four enumeration values, and exactly that one |
| WorkflowTypes.ReadAIMetadata | backend/backend/backend/src/types/workflow.types.ts:92-98 | metadata is read only from an object with string intent, numeric confidence and string reasoning, which it keeps; optional keywords and urgency are missing exactly when absent; such an object with no optional members is always read |
| WorkflowTypes.AIMetadataToValue | backend/backend/backend/src/types/workflow.types.ts:92-98 | metadata is stored as a JSON object |
| WorkflowTypes.ReadStoredAIMetadata | backend/backend/backend/src/types/workflow.types.ts:92-98 | storing metadata as JSON and reading it back gives the same metadata |
| WorkflowModel.CastString | backend/backend/src/models/Workflow.ts:48-64 | the `String` cast keeps strings and refuses arrays and objects with a cast error on that path |
| WorkflowModel.RequiredString | backend/backend/src/models/Workflow.ts:42-61 | a missing or null value is refused as required; a value the `String` cast refuses gives that cast error; otherwise the stored value is the cast string, trimmed when the path has `trim`, and it is refused as required exactly when that leaves it empty |
| WorkflowModel.OptionalString | backend/backend/src/models/Workflow.ts:53-64 | a missing or null value stores nothing; a value the `String` cast refuses gives that cast error; otherwise the stored value is the cast string, trimmed when the path has `trim` |
| WorkflowModel.CastNumber | backend/backend/src/models/Workflow.ts:86-111 | the `Number` cast keeps numbers, treats a missing value and the empty string as no value, converts any other string exactly as `Number` does and refuses one that is not a number, and refuses arrays and objects |
| WorkflowModel.OptionalUnitNumber | backend/backend/src/models/Workflow.ts:86-111 | a number with `min: 0, max: 1` is stored only inside [0, 1] and refused outside it |
| WorkflowModel.BooleanOr | backend/backend/src/models/Workflow.ts:103-106 | a missing boolean takes its default and a boolean is kept |
| WorkflowModel.CastCondition | backend/backend/src/models/Workflow.ts:76-88 | a stored condition has a field, an operator from the enumeration, a value and a confidence in [0, 1]; an unknown operator is refused |
| WorkflowModel.CastAction | backend/backend/src/models/Workflow.ts:89-102 | a stored action has a type from the enumeration, its config and a numeric order; a missing order is refused |
| WorkflowModel.CastConditions | backend/backend/src/models/Workflow.ts:76-88 | the array casts exactly when every element does; then the i-th stored condition is the cast of the i-th element; otherwise the error is that of the first element that fails; all stored conditions are valid |
| WorkflowModel.CastActions | backend/backend/src/models/Workflow.ts:89-102 | the array casts exactly when every element does; then the i-th stored action is the cast of the i-th element; otherwise the error is that of the first element that fails; all stored actions are valid |
| WorkflowModel.ArrayItems | backend/backend/src/models/Workflow.ts:76-89 | a missing array path is the empty array, an array is its elements, a single object the one-element array holding it; any other value is refused |
| WorkflowModel.CastHeader | backend/backend/src/models/Workflow.ts:42-64 | the header casts exactly when the five path casts do, and then holds their values: organization and creator as given, the name trimmed and non-empty, the description trimmed, the natural-language text as given, an absent optional field left absent |
| WorkflowModel.CastTrigger | backend/backend/src/models/Workflow.ts:65-75 | the trigger type comes from the enumeration and its config is required and kept |
| WorkflowModel.CastReview | backend/backend/src/models/Workflow.ts:103-123 | status defaults to draft and aiGenerated to false; a given status, flag, confidence, explanation and approver are kept, an absent one stays absent; a confidence outside [0, 1], an unknown status or an empty approver is refused |
| WorkflowModel.CastBody | backend/backend/src/models/Workflow.ts:76-102 | a missing array becomes empty; a given array is cast element by element, and the body casts exactly when both arrays do; a single object is cast as the one-element array holding it; any other value is refused; stored conditions and actions are valid |
| WorkflowModel.CastWorkflow | backend/backend/src/models/Workflow.ts:40-128 | a document becomes a record exactly when its header, trigger, body and review all cast, and the record, with the given id, is assembled from exactly those casts; it is well formed; defaults draft and not AI-generated; given status, flag, confidence, organization and creator kept, name trimmed; out-of-range confidence or unknown status refused |
| WorkflowModel.CastKeepsAiGenerated | backend/backend/src/models/Workflow.ts:103-106 | a boolean `aiGenerated` in the document is the stored flag |
| WorkflowModel.CastKeepsStatus | backend/backend/src/models/Workflow.ts:119-123 | a status given by name is the stored status |
| WorkflowModel.ReviewKeepsWellFormed | backend/backend/src/models/Workflow.ts:115-123 | changing the status and setting a non-empty approver keeps a record well formed |
| WorkflowModel.CastConditionDoc | backend/backend/src/models/Workflow.ts:76-88 | a valid condition written as a document casts back to itself |
| WorkflowModel.CastActionDoc | backend/backend/src/models/Workflow.ts:89-102 | a valid action written as a document casts back to itself |
| WorkflowModel.CastConditionDocs | backend/backend/src/models/Workflow.ts:76-88 | valid conditions written as documents cast back to themselves |
| WorkflowModel.CastActionDocs | backend/backend/src/models/Workflow.ts:89-102 | valid actions written as documents cast back to themselves |
| ExecutionModel.TimeValue | src/models/Execution.ts:75 | `new Date(n)`: a number within 8.64e15 ms of the epoch gives its time value truncated toward zero, and any other number an invalid date |
| ExecutionModel.CastDate | src/models/Execution.ts:75 | the `Date` cast: `null` and `""` store no date, a number or a millisecond string is its time value when valid, other text is what the date parser reads when valid, booleans and objects are refused, and every stored time is a valid date |
| ExecutionModel.CastStep | src/models/Execution.ts:52-77 | a step document is stored exactly when its type and status come from their enumerations and its duration, error and timestamp pass the `Number`, `String` and `Date` casts; the stored step holds those casts' values, its input, output and metadata, a missing timestamp becomes now, and a missing type is the first error |
| ExecutionModel.CastStoredStep | src/models/Execution.ts:52-77 | a step with a valid timestamp, written as a document, casts back to exactly itself |
| ExecutionModel.StepsOfKind | src/models/Execution.ts:12-27 | the steps of one type are exactly those in the log with that type |
| ExecutionModel.StepsOfKindAppend | src/models/Execution.ts:12-27 | the steps of one type in an appended log are those of each part, in order |
| ExecutionModel.Execution.constructor | src/models/Execution.ts:34-93 | `Execution.create`: organization, workflow and trigger type required; status running, started now, empty log, no completion time or duration |
| ExecutionModel.Execution.Push | src/models/Execution.ts:12-27 | `steps.push`: the log grows by exactly that step at its end and nothing else changes |
| ExecutionModel.Execution.Finish | src/models/Execution.ts:78-88 | sets the final status with completion time and duration, leaving the log unchanged |
| ActionExecutor.MatchAt | backend/src/services/workflow/ActionExecutor.ts:150 | a match of `/\{\{([^}]+)\}\}/` starting at a position spans a placeholder: two opening braces, one or more characters other than `}`, two closing braces |
| ActionExecutor.MatchAtComplete | backend/src/services/workflow/ActionExecutor.ts:150 | every placeholder-shaped substring is the match the pattern finds at its start (the pattern cannot stop elsewhere) |
| ActionExecutor.Scan | backend/src/services/workflow/ActionExecutor.ts:150-151 | the global `matchAll` yields matches in order, non-overlapping, each a real match of the pattern |
| ActionExecutor.ScanHead | backend/src/services/workflow/ActionExecutor.ts:151 | the first match is the leftmost one; with no match, no position of the template starts a placeholder |
| ActionExecutor.ScanResumes | backend/src/services/workflow/ActionExecutor.ts:151 | after each match the global scan restarts at that match's end |
| ActionExecutor.ScanGap | backend/src/services/workflow/ActionExecutor.ts:151 | no match is skipped between two consecutive matches or after the last |
| ActionExecutor.MatchTexts | backend/src/services/workflow/ActionExecutor.ts:151-153 | every `match[0]` the loop sees is placeholder-shaped |
| ActionExecutor.MatchesIffPlaceholder | backend/src/services/workflow/ActionExecutor.ts:151-153 | the loop runs at least once exactly when the template contains a placeholder |
| ActionExecutor.FirstOccurrence | backend/src/services/workflow/ActionExecutor.ts:156 | the position `String.replace` with a string pattern acts on: the first occurrence, and none before it |
| ActionExecutor.ReplaceFirst | backend/src/services/workflow/ActionExecutor.ts:156 | a string without the pattern is returned unchanged |
| ActionExecutor.ReplaceAtFirst | backend/src/services/workflow/ActionExecutor.ts:156 | the replacement text takes the place of the first occurrence and the rest of the string is kept |
| ActionExecutor.Shown | backend/src/services/workflow/ActionExecutor.ts:154-165 | a placeholder is replaced by `String` of the value at the trimmed dot path between its braces, or by the empty string when that value is falsy |
| ActionExecutor.Lookup | backend/src/services/workflow/ActionExecutor.ts:154-156 | the loop body's lookup computes exactly the replacement `Shown` gives for the match |
| ActionExecutor.ShownKey | backend/src/services/workflow/ActionExecutor.ts:154-165 | `{{key}}` for a single plain key shows `String(data[key] \|\| '')` |
| ActionExecutor.ApplyEdits | backend/src/services/workflow/ActionExecutor.ts:147-157 | with no match the result is the template itself |
| ActionExecutor.Edits | backend/src/services/workflow/ActionExecutor.ts:153-156 | one replacement per match, in match order, of the match's own text by its looked-up value |
| ActionExecutor.ApplyEditsStep | backend/src/services/workflow/ActionExecutor.ts:153-157 | each loop round replaces the first occurrence of one match text in the result built so far |
| ActionExecutor.ReplaceTemplateVariables | backend/src/services/workflow/ActionExecutor.ts:146-160 | the loop's result equals the substitution function: every match, in order, replaced at its first occurrence in the running result |
| ActionExecutor.NoPlaceholderUnchanged | backend/src/services/workflow/ActionExecutor.ts:146-160 | a template without any placeholder comes back unchanged |
| ActionExecutor.FirstMatchIsFirstOccurrence | backend/src/services/workflow/ActionExecutor.ts:151-156 | the first match's text occurs nowhere earlier, so the first replacement lands on the match itself |
| ActionExecutor.FirstMatchReplaced | backend/src/services/workflow/ActionExecutor.ts:151-156 | replacing the first match's text replaces exactly the first match |
| ActionExecutor.SinglePlaceholder | backend/src/services/workflow/ActionExecutor.ts:146-160 | a template with exactly one placeholder gets the looked-up value in its place and is otherwise unchanged |
| ActionExecutor.TwoPlaceholderMatches | backend/src/services/workflow/ActionExecutor.ts:150-153 | `{{a}} {{b}}` yields exactly its two placeholders as matches |
| ActionExecutor.ValueShadowsLaterPlaceholder | backend/src/services/workflow/ActionExecutor.ts:153-157 | because later matches are searched in the already-substituted result, a value that itself reads `{{b}}` is consumed by the second replacement: `{{a}} {{b}}` with `a = "{{b}}"` and `b = x` yields `x {{b}}` |
| ActionExecutor.Recipient | backend/src/services/workflow/ActionExecutor.ts:43-53 | the literal `{{user.email}}` stands for the organization owner's address, or '' without an owner; any other `to` is used as is |
| ActionExecutor.EmailSentOnlyWhenAccepted | backend/src/services/workflow/ActionExecutor.ts:42-77 | the e-mail action succeeds iff subject and body are strings and the transport accepts the mail to the resolved recipient with the substituted subject and body; it then returns `{success, recipient, subject}`; the subject defaults to "Workflow Alert" |
| ActionExecutor.ExecuteEmailAction | backend/src/services/workflow/ActionExecutor.ts:37-78 | the method's result is the e-mail outcome characterised above |
| ActionExecutor.Send | backend/src/services/workflow/ActionExecutor.ts:56-73 | sends to the resolved recipient with the defaulted subject and body, and returns the e-mail outcome |
| ActionExecutor.WebhookRequest | backend/src/services/workflow/ActionExecutor.ts:83-89 | method, payload and headers are the configured ones when truthy, and otherwise POST, the trigger data and `{}`; the url is the configured one and the timeout 10000 ms |
| ActionExecutor.WebhookOutcome | backend/src/services/workflow/ActionExecutor.ts:81-100 | the webhook action fails exactly when the request fails, with "Webhook failed: " followed by the client's message |
| ActionExecutor.UnknownTypeFails | backend/src/services/workflow/ActionExecutor.ts:27-28 | a type outside the action enumeration fails with "Unknown action type: " and the type |
| ActionExecutor.StoredKindOutcome | backend/src/services/workflow/ActionExecutor.ts:10-29 | an action whose type comes from the enumeration takes its own branch of the switch |
| ActionExecutor.Execute | backend/src/services/workflow/ActionExecutor.ts:8-34 | the result is the action outcome for the given type: e-mail, webhook, notification `{success, message}`, log `{success, logged}` or the unknown-type error |
| ActionExecutor.ExecuteKind | backend/src/services/workflow/ActionExecutor.ts:10-25 | each enumeration value dispatches to its own action |
| ExecutionEngine.Compare | backend/src/services/workflow/ExecutionEngine.ts:197-224 | each operator's verdict: `equals` is strict equality, `contains` is case-folded substring, `greater_than`/`less_than` hold exactly when both sides convert to numbers (never NaN) in that order; `matches_intent` is never decided by a comparison |
| ExecutionEngine.NaNComparesFalse | backend/src/services/workflow/ExecutionEngine.ts:206-210 | a value that `Number(...)` turns into NaN is neither greater nor less than anything |
| ExecutionEngine.ContainsIgnoresCase | backend/src/services/workflow/ExecutionEngine.ts:201-204 | `contains` ignores case on both sides and every text contains itself |
| ExecutionEngine.ContainsMeansOccurs | backend/src/services/workflow/ExecutionEngine.ts:201-204 | `contains` holds iff the lower-cased condition value occurs at some position of the lower-cased field text |
| ExecutionEngine.ComparisonsConsistent | backend/src/services/workflow/ExecutionEngine.ts:198-210 | greater-than and less-than never both hold, greater-than is less-than swapped, equality is symmetric |
| ExecutionEngine.ZeroThresholdIsNoThreshold | backend/src/services/workflow/ExecutionEngine.ts:271-278 | a confidence threshold of 0 is falsy and behaves as no threshold: only the intent must match |
| ExecutionEngine.IntentVerdictMonotone | backend/src/services/workflow/ExecutionEngine.ts:271-278 | a more confident classification of the same intent never turns a pass into a failure |
| ExecutionEngine.LoggedAppend | backend/src/services/workflow/ExecutionEngine.ts:158 | the step log is append-only: logs concatenate |
| ExecutionEngine.ExtendsTrans | backend/src/services/workflow/ExecutionEngine.ts:158 | extending a log twice extends it by both batches in order |
| ExecutionEngine.IntentPassesOnlyWhenRecorded | backend/src/services/workflow/ExecutionEngine.ts:232-296 | the intent condition asks the classifier once; it passes iff classification, the analysis record and the step save succeed and the verdict holds; it then logs one successful AI step, and a classifier failure logs one failed AI step |
| ExecutionEngine.JudgesSound | backend/src/services/workflow/ExecutionEngine.ts:188-229 | a single condition never takes back a write or classification and logs only AI analysis steps |
| ExecutionEngine.ConditionsFromCounts | backend/src/services/workflow/ExecutionEngine.ts:144-155 | the condition loop only moves the write and classification counts forward |
| ExecutionEngine.ConditionCheckLogged | backend/src/services/workflow/ExecutionEngine.ts:129-185 | no conditions pass at once with nothing logged; otherwise the loop's steps are followed by exactly one condition-check step with the verdict, the phase succeeds iff its save succeeds, and a failed save adds the failed condition-check step |
| ExecutionEngine.CountKind | backend/src/services/workflow/ExecutionEngine.ts:158 | a count of steps of one type never exceeds the log length |
| ExecutionEngine.CountKindAppend | backend/src/services/workflow/ExecutionEngine.ts:158 | counts of steps add up over appended logs |
| ExecutionEngine.ConditionsLogOnlyAi | backend/src/services/workflow/ExecutionEngine.ts:144-155 | the condition loop itself logs only AI analysis steps |
| ExecutionEngine.IntentCount | backend/src/services/workflow/ExecutionEngine.ts:212-217 | the number of AI conditions never exceeds the number of conditions |
| ExecutionEngine.ConditionsStopAtFailure | backend/src/services/workflow/ExecutionEngine.ts:151-154 | conditions after the first failing one are never evaluated: appending more changes neither verdict nor log |
| ExecutionEngine.PlainConditions | backend/src/services/workflow/ExecutionEngine.ts:144-155 | without AI conditions the verdict is the AND of the comparisons, nothing is logged and no external service is called |
| ExecutionEngine.PassingConditionsClassifyEach | backend/src/services/workflow/ExecutionEngine.ts:144-155 | a passing condition list asked the classifier exactly once per AI condition and logged one successful AI step for each |
| ExecutionEngine.Insert | backend/src/services/workflow/ExecutionEngine.ts:305 | insertion keeps every action and adds one |
| ExecutionEngine.InsertSorted | backend/src/services/workflow/ExecutionEngine.ts:305 | insertion into an order-sorted list keeps it sorted |
| ExecutionEngine.SortByOrder | backend/src/services/workflow/ExecutionEngine.ts:305 | the sorted actions are a permutation of the workflow's actions, ascending by `order` |
| ExecutionEngine.SortByOrderStable | backend/src/services/workflow/ExecutionEngine.ts:305 | the sort is stable: actions with equal `order` keep their original sequence |
| ExecutionEngine.ActionStep | backend/src/services/workflow/ExecutionEngine.ts:308-353 | one action counts as attempted; with a successful save it logs a success step with the result or a failure step with the message, and does not abort |
| ExecutionEngine.ActionsFrom | backend/src/services/workflow/ExecutionEngine.ts:307-354 | running the actions only moves the write and action counts forward |
| ExecutionEngine.EveryActionRuns | backend/src/services/workflow/ExecutionEngine.ts:307-354 | while saves succeed nothing aborts: every action runs once with one save each and logs one step |
| ExecutionEngine.EveryActionLogged | backend/src/services/workflow/ExecutionEngine.ts:334-353 | a failing action does not stop the others: the k-th step logged belongs to the k-th sorted action and its status is that action's outcome |
| ExecutionEngine.Failing | backend/src/services/workflow/ExecutionEngine.ts:99-121 | the inner catch ends the run failed, appends one failed action step with the message, rethrows it (or the save's own error) and counts no usage |
| ExecutionEngine.RunEndsCompletedOrFailed | backend/src/services/workflow/ExecutionEngine.ts:58-121 | a run ends completed exactly when nothing is thrown, failed otherwise; usage is counted exactly when the conditions passed and nothing was thrown |
| ExecutionEngine.ReliableConditions | backend/src/services/workflow/ExecutionEngine.ts:129-185 | with every write succeeding, condition evaluation never throws |
| ExecutionEngine.ReliableRun | backend/src/services/workflow/ExecutionEngine.ts:58-98 | with every write succeeding, the run completes; usage is counted iff the conditions passed; when they fail only the condition steps are logged, and otherwise one step per action follows them |
| ExecutionEngine.ReliableStoreRun | backend/src/services/workflow/ExecutionEngine.ts:58-98 | over a store whose writes all succeed, a run always completes and counts usage exactly when the conditions pass |
| ExecutionEngine.ConditionsUnfold | backend/src/services/workflow/ExecutionEngine.ts:144-155 | one turn of the condition loop |
| ExecutionEngine.ActionsUnfold | backend/src/services/workflow/ExecutionEngine.ts:307-354 | one turn of the action loop |
| ExecutionEngine.Bumped | backend/src/services/workflow/ExecutionEngine.ts:89-91 | `$inc usage.workflowsExecuted`: the organization's count rises by one and nothing else in any organization changes |
| ExecutionEngine.FindIn | backend/src/services/workflow/ExecutionEngine.ts:365-368 | the record found has this id and organization; none is found only when no record matches both |
| ExecutionEngine.Engine.constructor | backend/src/services/workflow/ExecutionEngine.ts:16 | an engine starts with no execution records and no external calls made |
| ExecutionEngine.Engine.Now | backend/src/services/workflow/ExecutionEngine.ts:23 | a clock reading is taken from the clock sequence, one tick further |
| ExecutionEngine.Engine.Write | backend/src/services/workflow/ExecutionEngine.ts:70 | one save: it fails as the store says for this write and counts one write |
| ExecutionEngine.Engine.LogAiFailure | backend/src/services/workflow/ExecutionEngine.ts:279-295 | the catch of the intent condition appends exactly the failed AI step and counts its save |
| ExecutionEngine.Engine.Log | backend/src/services/workflow/ExecutionEngine.ts:158 | a push appends exactly one step and nothing else in the record changes |
| ExecutionEngine.Engine.EvaluateIntentCondition | backend/src/services/workflow/ExecutionEngine.ts:232-296 | the method returns the intent verdict and appends exactly the steps the intent outcome describes |
| ExecutionEngine.Engine.EvaluateSingleCondition | backend/src/services/workflow/ExecutionEngine.ts:188-229 | the method returns the single-condition verdict and appends exactly its steps |
| ExecutionEngine.Engine.EvaluateEach | backend/src/services/workflow/ExecutionEngine.ts:142-155 | the loop returns the AND of the conditions up to the first failure and appends exactly their steps |
| ExecutionEngine.Engine.EvaluateConditions | backend/src/services/workflow/ExecutionEngine.ts:129-185 | the method returns (or throws) the condition phase outcome and appends exactly its steps |
| ExecutionEngine.Engine.LogConditionCheck | backend/src/services/workflow/ExecutionEngine.ts:157-184 | the condition-check step is logged and saved; a failed save logs a failed condition-check step, saves again and throws |
| ExecutionEngine.Engine.RunAction | backend/src/services/workflow/ExecutionEngine.ts:308-353 | one action in its try/catch: logs its success or failure step and aborts only when a save throws |
| ExecutionEngine.Engine.SettleAction | backend/src/services/workflow/ExecutionEngine.ts:318-353 | the logging and saving around one action's result |
| ExecutionEngine.Engine.ExecuteActions | backend/src/services/workflow/ExecutionEngine.ts:299-355 | the loop appends exactly the steps of the actions run in sequence and stops only when a save in a catch throws |
| ExecutionEngine.Engine.FailRun | backend/src/services/workflow/ExecutionEngine.ts:99-121 | the record becomes failed with completion time and duration, the failed step is appended, and the error (or the save's) is rethrown |
| ExecutionEngine.Engine.Complete | backend/src/services/workflow/ExecutionEngine.ts:67-86 | the record becomes completed, with its log unchanged, and is saved |
| ExecutionEngine.Engine.BumpUsage | backend/src/services/workflow/ExecutionEngine.ts:89-91 | after the write the organization's executed count is one higher; on failure the store is unchanged |
| ExecutionEngine.Engine.RunWorkflow | backend/src/services/workflow/ExecutionEngine.ts:58-121 | status, log, error and usage are those of the run specification |
| ExecutionEngine.Engine.Conclude | backend/src/services/workflow/ExecutionEngine.ts:66-121 | what happens after the conditions returned: completed without actions when they fail, the actions otherwise |
| ExecutionEngine.Engine.ActThenComplete | backend/src/services/workflow/ExecutionEngine.ts:79-98 | the actions, the completion save and the usage update |
| ExecutionEngine.Engine.Close | backend/src/services/workflow/ExecutionEngine.ts:82-121 | completion save and usage update after the actions, each failure landing in the inner catch |
| ExecutionEngine.Engine.Execute | backend/src/services/workflow/ExecutionEngine.ts:18-126 | 404 "Workflow not found" outside the tenant, 400 "Workflow is not active" unless active; otherwise a fresh running record of the workflow's trigger type whose final status, step log, thrown error and usage update are exactly the run specification's |
| ExecutionEngine.Engine.Open | backend/src/services/workflow/ExecutionEngine.ts:27-51 | the two guards and the creation of a running record with an empty log |
| ExecutionEngine.Engine.RunCreated | backend/src/services/workflow/ExecutionEngine.ts:58-121 | a freshly created record ends with the run specification's status, steps, error and usage update |
| ExecutionEngine.Engine.GetExecution | backend/src/services/workflow/ExecutionEngine.ts:363-379 | the record with this id in this organization, or 404 "Execution not found" exactly when there is none |
| ExecutionEngine.Engine.CancelExecution | backend/src/services/workflow/ExecutionEngine.ts:409-436 | 404 when absent, 400 "Only running executions can be cancelled" unless running; otherwise, when the save succeeds, the record becomes cancelled with completion time and duration from its start and its log unchanged; when the save fails its error is rethrown and the record stays running and unchanged; no other record is touched |
| TriggerHandler.FindTarget | backend/backend/backend/src/services/workflow/TriggerHandler.ts:15-20 | the workflow found matches id, tenant, active status (and webhook trigger type for a webhook); none is found only when no stored workflow matches |
| TriggerHandler.WebhookTargetsAreManualTargets | backend/backend/backend/src/services/workflow/TriggerHandler.ts:15-20 | the webhook query is the manual query narrowed by trigger type: whatever a webhook may start, a manual run may start too |
| TriggerHandler.QueuedWorkflowPassesEngineGuards | backend/backend/backend/src/services/workflow/TriggerHandler.ts:15-20 | with unique ids, a workflow either handler queues is the one the engine looks up for that tenant, and it is active, so the engine's two guards pass |
| TriggerHandler.Handler.constructor | backend/backend/backend/src/services/workflow/TriggerHandler.ts:6 | a handler starts with an empty queue |
| TriggerHandler.Handler.Enqueue | backend/backend/backend/src/services/workflow/TriggerHandler.ts:31-68 | a refused enqueue is rethrown with nothing queued; otherwise exactly one job is appended |
| TriggerHandler.Handler.HandleWebhook | backend/backend/backend/src/services/workflow/TriggerHandler.ts:8-44 | no matching active webhook workflow returns null and queues nothing; otherwise the job with the payload is queued and `{queued: true, workflowId}` returned |
| TriggerHandler.Handler.HandleManual | backend/backend/backend/src/services/workflow/TriggerHandler.ts:47-77 | the payload defaults to `{}`; no matching active workflow throws "Workflow not found or not active" and queues nothing; otherwise one job is queued |
| WorkflowParser.ValidateParsedWorkflow | src/services/ai/WorkflowParser.ts:83-99 | a parsed reply is accepted iff it has a truthy trigger type, a non-empty actions array, a truthy intent and confidence, and a confidence neither below 0 nor above 1; otherwise the first failing guard's message is thrown, in the code's order |
| WorkflowParser.ZeroConfidenceRejected | src/services/ai/WorkflowParser.ts:92-94 | a confidence of exactly 0 is refused as a missing intent classification, not as out of range |
| WorkflowParser.AcceptedConfidence | src/services/ai/WorkflowParser.ts:84-98 | an accepted numeric confidence lies in (0, 1]; an accepted reply has a trigger type and at least one action |
| WorkflowParser.FirstFailingGuardWins | src/services/ai/WorkflowParser.ts:84-86 | a reply without a trigger is refused for its trigger, whatever its actions and confidence |
| WorkflowParser.ParseNaturalLanguage | src/services/ai/WorkflowParser.ts:48-81 | an AI failure is rethrown, unparsable text fails with 500 "Failed to parse AI response", a reply failing validation throws the validation message; a success carries the validated JSON and tokensUsed = input tokens + output tokens |
| WorkflowService.ApprovalDecision | backend/backend/src/services/workflow/WorkflowService.ts:29-31 | approval is required when the organization demands it; for a numeric confidence it is required iff the confidence is below the threshold or the organization demands it; a NaN confidence never falls below the threshold |
| WorkflowService.RequiresApproval | backend/backend/src/services/workflow/WorkflowService.ts:28-31 | approval is needed when the confidence is below the organization's threshold or the organization always asks; `WorkflowService.ApprovalDecision` spells out both cases |
| WorkflowService.ApprovalMonotone | backend/backend/src/services/workflow/WorkflowService.ts:29-31 | raising the confidence threshold never lets a workflow skip an approval it needed before |
| WorkflowService.NlWorkflowStatus | backend/backend/src/services/workflow/WorkflowService.ts:34-46 | a workflow created from the AI's parse is a draft exactly when approval is required, and active otherwise |
| WorkflowService.NlWorkflowAi | backend/backend/src/services/workflow/WorkflowService.ts:42 | it is marked AI-generated |
| WorkflowService.NlWorkflowOrganization | backend/backend/src/services/workflow/WorkflowService.ts:35 | it belongs to the caller's organization |
| WorkflowService.NlWorkflowCreator | backend/backend/src/services/workflow/WorkflowService.ts:36 | it was created by the caller |
| WorkflowService.NlWorkflowName | backend/backend/src/services/workflow/WorkflowService.ts:37 | without a name it is called "Workflow: " followed by the parsed intent; a given name is used (trimmed by the schema) |
| WorkflowService.NlWorkflowConditions | backend/backend/src/services/workflow/WorkflowService.ts:40 | it has no conditions when the parse gave none |
| WorkflowService.NlWorkflowSingleCondition | backend/backend/src/services/workflow/WorkflowService.ts:40 | a parse whose `conditions` is a single object stores exactly that one condition, cast as the schema casts an element |
| WorkflowService.NlWorkflowConfidence | backend/backend/src/services/workflow/WorkflowService.ts:43 | it records the AI's numeric confidence |
| WorkflowService.CountAiCall | backend/backend/src/services/workflow/WorkflowService.ts:49-50 | the organization's AI-call count rises by exactly one and nothing else about it changes |
| WorkflowService.Service.RecordAiCall | backend/backend/src/services/workflow/WorkflowService.ts:49-50 | exactly that organization's usage gets one more AI call; records, accounts and invitations are unchanged and the store stays valid |
| WorkflowService.ManualWorkflowIsDraft | backend/backend/src/services/workflow/WorkflowService.ts:77-83 | a hand-made workflow is always a non-AI draft, whatever the data says |
| WorkflowService.ManualWorkflowOwner | backend/backend/src/services/workflow/WorkflowService.ts:77-83 | it belongs to the caller's organization and user unless the data names others (keys spread after them win) |
| WorkflowService.Matching | backend/backend/src/services/workflow/WorkflowService.ts:97-107 | the records listed are exactly the tenant's records that pass the status and creator filters, a repeated parameter acting as `$in` |
| WorkflowService.FilterAdmits | backend/backend/src/services/workflow/WorkflowService.ts:97-105 | a string filter admits its own value; an array filter admits any of its elements |
| WorkflowService.Listed | backend/backend/src/services/workflow/WorkflowService.ts:97-105 | the query `{ organizationId }` with the status and creator filters added when truthy |
| WorkflowService.ListedMeaning | backend/backend/src/services/workflow/WorkflowService.ts:97-105 | a record is listed exactly when it is the tenant's and each truthy filter admits it: an empty string filters nothing, a string must equal the record's value, an array must hold it, and the empty array lists nothing |
| WorkflowService.MatchingInOrder | backend/backend/src/services/workflow/WorkflowService.ts:97-107 | filtering keeps store order: the matches of a store that is two parts joined are the first part's matches followed by the second's, and one record matches on its own exactly when it is listed |
| WorkflowService.NewestFirst | backend/backend/src/services/workflow/WorkflowService.ts:110-112 | a listed record stored last comes first on a page that skips nothing: `sort({ createdAt: -1 })` puts the newest first |
| WorkflowService.Window | backend/backend/src/services/workflow/WorkflowService.ts:111-112 | `.skip(n).limit(m)`: at most m consecutive records starting at position n, as many as there are |
| WorkflowService.GetAll | backend/backend/src/services/workflow/WorkflowService.ts:95-121 | the page holds only the tenant's matching records, newest first, skipped and limited (limit 50 by default and when 0); the total counts every match regardless of the page |
| WorkflowService.PagesTile | backend/backend/src/services/workflow/WorkflowService.ts:111-112 | two consecutive pages together are the page spanning both: paging neither skips nor repeats a record |
| WorkflowService.OtherTenantsInvisible | backend/backend/src/services/workflow/WorkflowService.ts:97 | another tenant's record changes neither the page nor the total of a listing |
| WorkflowService.MatchingIgnores | backend/backend/src/services/workflow/WorkflowService.ts:97-105 | a record outside the filters does not change the matching records |
| WorkflowService.Service.constructor | backend/backend/src/services/workflow/WorkflowService.ts:8 | the service works over the given store |
| WorkflowService.Service.GetById | backend/backend/src/services/workflow/WorkflowService.ts:124-142 | the tenant's record with this id, or 404 "Workflow not found" exactly when there is none |
| WorkflowService.Service.Insert | backend/backend/src/models/Workflow.ts:37-128 | `Workflow.create`: a document the schema rejects gives a validation error and stores nothing; otherwise exactly the cast record is appended |
| WorkflowService.Service.Append | backend/backend/src/services/workflow/WorkflowService.ts:34 | a record the schema accepted is added after the existing ones, the store stays valid, and nothing else changes |
| WorkflowService.Service.CreateFromNaturalLanguage | backend/backend/src/services/workflow/WorkflowService.ts:10-72 | a parser failure or a missing organization (404 "Organization not found") changes nothing; otherwise the stored workflow is the cast of the document built from the parse with the approval decision, the organization's AI-call count rises by one, and the answer carries the approval flag, confidence, reasoning and tokens used |
| WorkflowService.Service.CreateManual | backend/backend/src/services/workflow/WorkflowService.ts:75-92 | the stored workflow is the cast of the data spread between the owner fields and the forced non-AI draft status |
| WorkflowService.Service.Approve | backend/backend/src/services/workflow/WorkflowService.ts:167-193 | 404 outside the tenant, 400 "Only draft workflows can be approved" unless a draft; otherwise the record becomes active with its approver set and nothing else changes |
| WorkflowService.Service.SetStatus | backend/backend/src/services/workflow/WorkflowService.ts:145-164 | the tenant's record gets the new status whatever it was before, or 404 |
| WorkflowService.Service.Activate | backend/backend/src/services/workflow/WorkflowService.ts:196-207 | any record of the tenant becomes active, from any status, or 404 |
| WorkflowService.Service.Pause | backend/backend/src/services/workflow/WorkflowService.ts:210-221 | any record of the tenant becomes paused, from any status, or 404 |
| WorkflowService.Service.Delete | backend/backend/src/services/workflow/WorkflowService.ts:224-243 | a soft delete: the record stays, archived, and the number of records is unchanged; 404 outside the tenant |
| Validators.StepTexts | backend/backend/backend/src/utils/validators.ts:49 | each path step is written as its key or its index |
| Validators.Label | backend/backend/backend/src/utils/validators.ts:48-51 | Joi's label of an issue's path: keys joined with ".", indices in brackets, the root called "value" |
| Validators.KeyPathLabel | backend/backend/backend/src/utils/validators.ts:48-51 | for a path of keys only, the label in the message is the reported field name `path.join('.')` |
| Validators.Message | backend/backend/backend/src/utils/validators.ts:50 | Joi's default message: the quoted label followed by the text of the violated rule |
| Validators.CheckWorkflow | backend/backend/backend/src/utils/validators.ts:19-43 | the issues of the workflow schema, in key order; `Validators.WorkflowCheckExact` shows none is reported exactly when the schema accepts |
| Validators.Unknown | backend/backend/backend/src/utils/validators.ts:6-43 | an object's undeclared keys are reported as not allowed, one issue per undeclared key and nothing else |
| Validators.UnknownEmpty | backend/backend/backend/src/utils/validators.ts:6-43 | no key is reported exactly when every key of the object is declared |
| Validators.StringCheckExact | backend/backend/backend/src/utils/validators.ts:9-20 | `Joi.string().min(a).max(b).required()` accepts exactly the strings whose length lies in [a, b] |
| Validators.CheckOneOf | backend/backend/backend/src/utils/validators.ts:24-38 | `Joi.string().valid(...).required()` accepts exactly the listed strings; anything else present is first reported as not one of them |
| Validators.RegisterCheckExact | backend/backend/backend/src/utils/validators.ts:3-12 | registration data is accepted exactly when it is missing, or an object with only the declared keys, a valid email, a password of at least 8 characters, names of 2 to 50 characters and an organization name of 2 to 100 |
| Validators.RegisterReportsEveryField | backend/backend/backend/src/utils/validators.ts:46 | with `abortEarly: false` no violation hides another: a bad first name and a short password are each reported whatever else is wrong |
| Validators.LoginCheckExact | backend/backend/backend/src/utils/validators.ts:3-17 | sign-in data is accepted exactly when it is missing, or an object with only email and password, a valid email and a non-empty password |
| Validators.OptionalTextExact | backend/backend/backend/src/utils/validators.ts:21-22 | an optional `max(n)` string is accepted exactly when absent or non-empty and at most n characters |
| Validators.TriggerExact | backend/backend/backend/src/utils/validators.ts:23-26 | a trigger is accepted exactly when it is an object with a type from the three names and an object config, and no other key |
| Validators.ActionExact | backend/backend/backend/src/utils/validators.ts:36-41 | an action is accepted exactly when it has a type from the four names, an object config and a whole-number order of at least 1, and no other key |
| Validators.ConditionExact | backend/backend/backend/src/utils/validators.ts:27-34 | a condition is accepted exactly when it has a non-empty field, an operator from the five names, a string or number value, an optional non-empty aiIntent and an optional confidence in [0, 1], and no other key |
| Validators.ItemsExact | backend/backend/backend/src/utils/validators.ts:27-42 | an array's elements are all accepted exactly when each element is |
| Validators.ItemExact | backend/backend/backend/src/utils/validators.ts:27-42 | one element is accepted exactly when it meets its item schema |
| Validators.ArrayExact | backend/backend/backend/src/utils/validators.ts:27-42 | an array path is accepted exactly when it is absent and optional, or an array of accepted elements |
| Validators.WorkflowCheckExact | backend/backend/backend/src/utils/validators.ts:19-43 | a workflow definition is accepted exactly when it has a 3 to 100 character name, optional description (≤ 500) and natural-language text (≤ 1000), a valid trigger, optional valid conditions, a required array of valid actions, and no other key |
| Validators.ActionOrderRule | backend/backend/backend/src/utils/validators.ts:40 | an accepted order is at least 1 and a whole number: 0 and 1.5 are refused |
| Validators.ValidateRequest | backend/backend/backend/src/utils/validators.ts:45-55 | valid, returning the data, exactly when there is no issue; otherwise one `{field, message}` per issue, in order, the field being the path joined with "." |
| Validators.AbsentBodyIsValid | backend/backend/backend/src/utils/validators.ts:45-55 | a missing body passes both schemas, since neither object is required |
| Validators.FieldNameSplits | backend/backend/backend/src/utils/validators.ts:49 | when no key holds a ".", the dotted field name splits back into the path's steps |
| Validators.JoinSplit | backend/backend/backend/src/utils/validators.ts:49 | joining with "." and splitting at "." gives back parts that hold no "." |
| Rbac.Level | backend/backend/backend/src/middleware/rbac.ts:9-14 | every role has a level from 1 to 4 |
| Rbac.LevelsStrictlyOrdered | backend/backend/backend/src/middleware/rbac.ts:9-14 | viewer < member < admin < owner, and no two roles share a level |
| Rbac.RequireRole | backend/backend/backend/src/middleware/rbac.ts:16-42 | no signed-in user gives 401 "Authentication required"; a user below the minimum level gives 403 "Insufficient permissions" naming the required and the current role; the request proceeds exactly when the user's level reaches the minimum |
| Rbac.RequireRoleMonotone | backend/backend/backend/src/middleware/rbac.ts:24-34 | a role that passes a minimum passes every lower minimum, and every higher role passes it too |
| Rbac.NamedGuards | backend/backend/backend/src/middleware/rbac.ts:44-46 | only owners pass `requireOwner`; owners and admins pass `requireAdmin`; everyone but a viewer passes `requireMember` |
| Rbac.ModifyRule | backend/backend/backend/src/middleware/rbac.ts:49-65 | owners and admins may modify anything, members exactly their own resources, viewers nothing; permission only grows with the role's level |
| Rbac.CanModifyResource | backend/backend/backend/src/middleware/rbac.ts:49-65 | `canModifyResource`; `Rbac.ModifyRule` states who may modify what |
| Tenancy.AddTenantFilter | backend/backend/backend/src/middleware/tenancy.ts:33-41 | the filter's keys are kept, and `organizationId` is forced to the tenant whatever the filter said |
| Tenancy.DefaultTenantFilter | backend/backend/backend/src/middleware/tenancy.ts:33-41 | with the default filter the query is `{ organizationId }` alone |
| Tenancy.TenantFilterLastWins | backend/backend/backend/src/middleware/tenancy.ts:33-41 | narrowing twice is narrowing once to the last tenant: nesting cannot widen a query |
| Tenancy.Request.constructor | backend/backend/backend/src/middleware/tenancy.ts:5-9 | a request starts with its user and organization id and no organization attached |
| Tenancy.EnsureTenancy | backend/backend/backend/src/middleware/tenancy.ts:5-30 | no user or organization id gives 401; an unknown organization gives 404; the request proceeds exactly when the organization exists, which is then attached |
| EnvConfig.GetEnvVar | backend/src/config/env.ts:28-38 | a set, non-empty variable wins without a warning; an unset or empty one takes the default with a warning; with no default it fails with "Missing environment variable: " and the key |
| EnvConfig.DefaultNeverFails | backend/src/config/env.ts:28-38 | a setting with a default never fails and resolves to the variable when set, the default otherwise |
| EnvConfig.DigitPrefix | backend/src/config/env.ts:42-58 | the digits `parseInt` reads: the longest run of decimal digits at the start |
| EnvConfig.ParseDigits | backend/src/config/env.ts:42-58 | `parseInt(_, 10)` of a run of digits reads its value, with a leading "-" negated and a "+" ignored, whatever non-digit text follows ("5000ms" reads as 5000) |
| EnvConfig.ParseRendered | backend/src/config/env.ts:42-58 | a natural number written in decimal reads back as itself |
| EnvConfig.NoDigitsIsNaN | backend/src/config/env.ts:42-58 | text that starts with neither a digit, a sign nor whitespace reads as NaN |
| EnvConfig.DigitPrefixStops | backend/src/config/env.ts:42-58 | the digit run stops at the first non-digit |
| EnvConfig.Setting | backend/src/config/env.ts:41-59 | a setting with a default is the resolved value of `getEnvVar`, warning exactly when the variable is unset or empty |
| EnvConfig.LoadConfig | backend/src/config/env.ts:40-60 | with an empty environment the defaults apply ("development", port from "5000", an empty API key, "dev-webhook-secret"); a set PORT, JWT_ACCESS_SECRET or WEBHOOK_SECRET is used |
| EnvConfig.NumericDefaults | backend/src/config/env.ts:42-58 | with nothing set the numeric settings are 5000, 587, 12, 60000 and 100 |
| EnvConfig.DefaultTexts | backend/src/config/env.ts:42-58 | the default texts "5000", "587", "12", "60000" and "100" read as those numbers |
| Auth.DashOthers | backend/src/services/auth/AuthService.ts:46 | every character outside `[a-z0-9]` becomes a dash and every other character is kept in place, so the length is unchanged |
| Auth.CollapseDashes | backend/src/services/auth/AuthService.ts:47 | collapsing dash runs never lengthens the text, keeps its first character and adds no new character |
| Auth.CollapseIsFilter | backend/src/services/auth/AuthService.ts:47 | collapsing keeps exactly the characters that are not a dash right after a dash, in their order: each run of dashes becomes its first dash |
| Auth.Truncate | backend/src/services/auth/AuthService.ts:48 | `substring(0, n)`: the first n characters of a longer text, and a text already short enough whole |
| Auth.StoredSlug | backend/src/services/auth/AuthService.ts:44-54 | the stored slug is the derived slug, a dash and the decimal registration time, which reads back as that time; it holds only `[a-z0-9-]` |
| Auth.StampedParts | backend/src/services/auth/AuthService.ts:54 | a slug-shaped prefix, a dash and a rendered time stay slug-shaped, and the prefix and the time can be read back |
| Auth.CollapseNoDoubleDash | backend/src/services/auth/AuthService.ts:47 | after collapsing there are never two dashes in a row |
| Auth.CollapseKeeps | backend/src/services/auth/AuthService.ts:47 | collapsing leaves a text without two dashes in a row unchanged |
| Auth.Undashed | backend/src/services/auth/AuthService.ts:46-47 | the non-dash projection of a text contains no dash |
| Auth.CollapseKeepsOthers | backend/src/services/auth/AuthService.ts:47 | collapsing removes dashes only: the other characters survive, in order |
| Auth.SlugShape | backend/src/services/auth/AuthService.ts:44-48 | a derived slug holds only `[a-z0-9-]`, never two dashes in a row, and at most 50 characters |
| Auth.SlugKeepsLettersAndDigits | backend/src/services/auth/AuthService.ts:44-48 | the lowered name's letters and digits survive in order, and the slug is a prefix of the collapsed text |
| Auth.SlugIdempotent | backend/src/services/auth/AuthService.ts:44-48 | deriving the slug of a slug gives the same slug |
| Auth.NewOrganizationApproval | backend/src/services/auth/AuthService.ts:52-60 | a new organization asks for approval of every AI-generated workflow, and would still ask below confidence 0.7 with approval switched off |
| Auth.EmailKey | backend/src/models/User.ts:24-31 | the stored address is the trimmed input with each character lower-cased in place: same length, no surrounding whitespace, no upper-case letter |
| Auth.EmailKeyIdempotent | backend/src/models/User.ts:24-31 | normalising a stored address again changes nothing, so a lookup by a stored address finds it |
| Auth.PasswordCheck | backend/src/models/User.ts:32-36 | a password passes the schema exactly when it has at least 8 characters, and a failure names the password path |
| Auth.UserCheck | backend/src/models/User.ts:24-46 | a new user passes the schema exactly when its trimmed email and names are non-empty and the password has at least 8 characters |
| Auth.NewOwnerRules | backend/src/services/auth/AuthService.ts:63-73 | the registered user is the unverified owner of the new organization; exactly the token handed out confirms it and exactly its password signs in |
| Auth.ConfirmSingleUse | backend/src/services/auth/AuthService.ts:150-152 | a confirmed account is verified, no token confirms it again, and its password, address and role are unchanged |
| Auth.ResetWindow | backend/src/services/auth/AuthService.ts:198-222 | an issued reset link opens the reset until exactly one hour after issue, and no other token opens it |
| Auth.ResetSingleUse | backend/src/services/auth/AuthService.ts:228-231 | after a reset exactly the new password signs in and the reset link no longer works |
| Auth.UniqueAfterRegister | backend/src/models/User.ts:24-31 | adding an account with an address nobody has keeps addresses unique |
| Auth.UniqueAfterChange | backend/src/models/User.ts:24-31 | changing an account without touching its address keeps addresses unique |
| Auth.AuthService.constructor | backend/src/services/auth/AuthService.ts:10 | the service works on the given store |
| Auth.AuthService.Register | backend/src/services/auth/AuthService.ts:29-97 | a taken address gives 400 "Email already registered" and changes nothing; an empty organization name fails validation; otherwise the organization is created, then the owner is added if the schema accepts it, and addresses stay unique |
| Auth.AuthService.AddOrganization | backend/src/services/auth/AuthService.ts:52-60 | the organization is stored under its id and nothing else changes |
| Auth.AuthService.AddUser | backend/src/services/auth/AuthService.ts:65-73 | an account with a new address is appended, nothing else changes, and addresses stay unique |
| Auth.AuthService.ReplaceUser | backend/src/services/auth/AuthService.ts:117-118 | saving an account that keeps its address replaces it in place and keeps addresses unique |
| Auth.AuthService.Login | backend/src/services/auth/AuthService.ts:100-137 | sign-in succeeds exactly when the address is known and the password matches, and then records the sign-in time; any failure is the same 401 "Invalid credentials" and changes nothing |
| Auth.AuthService.FindVerification | backend/src/services/auth/AuthService.ts:142-144 | the index found awaits confirmation with the token, and when none is found no account does |
| Auth.AuthService.VerifyEmail | backend/src/services/auth/AuthService.ts:140-161 | an unknown token gives 400 and changes nothing; otherwise exactly the matching account is confirmed |
| Auth.AuthService.RequestPasswordReset | backend/src/services/auth/AuthService.ts:189-212 | an unknown address gets the generic answer and nothing changes; otherwise exactly that account gets the token's hash, valid for one hour |
| Auth.AuthService.FindReset | backend/src/services/auth/AuthService.ts:217-222 | the index found has an open reset for the token at that time, and when none is found no account has |
| Auth.AuthService.ResetPassword | backend/src/services/auth/AuthService.ts:215-240 | an unknown or expired token gives 400; a password shorter than 8 fails validation and changes nothing; otherwise exactly that account gets the new password and its link is spent |
| OrganizationController.UniquePendingAfterInvite | backend/backend/src/controllers/organizationController.ts:62-84 | adding an invitation for an address with no pending invitation in its organization keeps pending invitations unique |
| OrganizationController.NewInvitationRules | backend/backend/src/controllers/organizationController.ts:73-84 | a new invitation is pending, names the inviter and role, opens with exactly the token handed out, and lasts exactly 604800000 ms |
| OrganizationController.RemoveAt | backend/backend/src/controllers/organizationController.ts:119 | deleting an account removes exactly that entry and keeps the others in order |
| OrganizationController.OwnersKeptOnRemove | backend/backend/src/controllers/organizationController.ts:115-119 | removing an account that is not an owner leaves every organization's owners unchanged |
| OrganizationController.OwnersKeptOnRoleChange | backend/backend/src/controllers/organizationController.ts:139-144 | giving a non-owner a role other than owner leaves every organization's owners unchanged |
| OrganizationController.UniqueAfterRemove | backend/backend/src/controllers/organizationController.ts:119 | removing an account keeps addresses unique |
| OrganizationController.OrganizationController.constructor | backend/backend/src/controllers/organizationController.ts:51-152 | the controller works on the given store |
| OrganizationController.OrganizationController.FindPending | backend/backend/src/controllers/organizationController.ts:63-67 | the index found is a pending invitation of that organization for that address, and when none is found there is none |
| OrganizationController.OrganizationController.InviteMember | backend/backend/src/controllers/organizationController.ts:51-103 | an existing account gives 400 "User already exists", then an existing pending invitation gives 400 "Invitation already sent", then an empty address fails validation; otherwise exactly the new invitation is appended; pending invitations stay unique |
| OrganizationController.OrganizationController.AddInvitation | backend/backend/src/controllers/organizationController.ts:77-84 | the invitation is appended, nothing else changes, and pending invitations stay unique |
| OrganizationController.OrganizationController.RemoveMember | backend/backend/src/controllers/organizationController.ts:105-125 | a non-member gives 404, the owner gives 400 "Cannot remove organization owner"; otherwise exactly that account is removed; owners never change and addresses stay unique |
| OrganizationController.OrganizationController.UpdateMemberRole | backend/backend/src/controllers/organizationController.ts:127-152 | a non-member gives 404, the owner gives 400 "Cannot change owner role"; otherwise exactly that account's role changes; owners are kept unless the new role is owner, and addresses stay unique |

## Left out

- Logging (`logger.*` calls) has no effect on any result and is not modelled.
- Concurrency between requests and between queued runs is not modelled: every operation runs alone on the store.
- The job queue is a sequence of queued run requests; the queue worker is not part of this model.
- `handleScheduled` is an empty placeholder in the code and is not modelled.
- `getExecutionsForWorkflow` is not modelled: it is a plain paginated query with no rule of its own.
- `populate` of referenced documents is not modelled; references stay ids.
- The contents of the `AIAnalysis` record written for AI-generated workflows are not modelled; only the organization's AI-call counter is.
- Signed access and refresh tokens (`generateTokens`, `refreshAccessToken`) are not modelled: JWT signing is a foreign library.
- SHA-256 (`hashToken`) and bcrypt are replaced by injective tagging functions (`Store.HashToken`, `Store.PasswordDigest`); the code only compares digests, and injectivity is the property it relies on.
- `toLowerCase` lowers the ASCII capitals `A`-`Z` only; Unicode case mapping is not modelled. Trimming, `Number` and `parseInt` skip the full ECMAScript whitespace set (tab, line feed, vertical tab, form feed, carriage return, space, U+00A0, U+1680, U+2000-U+200A, U+2028, U+2029, U+202F, U+205F, U+3000 and U+FEFF).
- Strings are sequences of Unicode code points, not of UTF-16 code units: for a character outside the Basic Multilingual Plane the model counts one where JavaScript counts two, so `length`, Joi's `min`/`max` string lengths and `substring(0, 50)` of the organization slug differ on such text.
- `JsValue.Get`: a property lookup finds the object's own keys only; names JavaScript finds on the prototype (`constructor`, `toString`, `__proto__`, `hasOwnProperty`, and the methods and `length` of strings and arrays) are treated as missing.
- `JsValue.MissingIntermediateKey`: "missing" means not an own key; an intermediate key that names an inherited property (`constructor`, `toString`, ...) would, in JavaScript, continue the path on that property instead of giving `undefined`.
- `JsValue.StrToNum`: only decimal literals are read; the `0x`, `0o` and `0b` prefixed forms and `Infinity` that `Number` also accepts are treated as not a number.
- The unique index on invitation tokens is not modelled: tokens are parameters of the model, and two equal tokens are not refused.
- Numbers are exact reals: floating-point rounding, `Infinity` and the text form of non-integral numbers are not modelled.
- Spreading a non-object value (`{...x}` with `x` a string or array) is not modelled; configurations and payloads are objects or absent.
- `ActionExecutor.ReplaceTemplateVariables`: `String.replace` is literal here; its `$&`, `$1` replacement patterns are not reproduced.
- `WorkflowService.Service.SetStatus`: the general `update`, which `PATCH /:id` calls with the request body as an arbitrary `$set`, is not modelled; `SetStatus` models only the status-only updates that approve, activate, pause and delete issue.
- `WorkflowService.GetAll`: `limit` and `skip` are natural numbers; negative query values are not modelled. Workflows created at the same instant are ordered by insertion. A `createdBy` filter that is not a valid ObjectId makes Mongoose throw a CastError, answered with 500; the model lists no record for it instead.
- `WorkflowService.Matching`: a bracketed query parameter (`?status[$ne]=draft`) arrives as an object, which Mongoose applies as a query operator; the model does not interpret operators and lets such a filter match no record. The elements of a repeated parameter are compared as the strings they arrive as; the model does not cast them.
- The organization `update`, `getCurrent` and `getMembers` handlers are not modelled: they read or write documents without rules of their own.
- Database write failures are modelled only where the engine catches them (the write oracle); a failing write elsewhere is outside the model.
- `Validators.IsEmail` is a stand-in for Joi's e-mail grammar: one `@`, a non-empty local part, two or more non-empty domain labels and no whitespace. Top-level-domain lists are not modelled.
- Validators: Joi's type conversion of the value it returns is not modelled; only the accept/reject verdict and the issues are.
- Validators: the error detail for a failed `alternatives` (string or number) is reduced to one issue kind.
- Validators: the order in which undeclared keys are reported follows map iteration, which is not specified.
- The `validate` middleware that wraps the schemas into a 400 response is not part of this model.
- The 500 answers of the role and tenancy middleware's catch blocks are not modelled: the model's lookups cannot throw.
- Ids are opaque strings. An id that is not a valid ObjectId makes Mongoose's `findOne` throw a CastError, which the services rethrow and the error handler answers with 500 "Internal server error"; the model treats it as an id that matches nothing, so `Store.Db.FindWorkflow`, `Store.Db.FindMember`, `TriggerHandler.Handler.HandleWebhook`, `WorkflowService.Service.GetById`, `ExecutionEngine.Engine.GetExecution`, `ExecutionEngine.Engine.CancelExecution` and the member handlers of `OrganizationController` give their not-found answer (404, or `null` from the webhook handler) instead.
- `ExecutionEngine.Engine.RunWorkflow`: the execution objects are the in-memory documents. When a save fails, the model keeps the in-memory changes of the run (its status, steps and times), whereas the stored record keeps the state of its last successful save; `ExecutionEngine.Engine.Execute` and a later `ExecutionEngine.Engine.GetExecution` inherit this.
- `EnvConfig.GetEnvVar`: the "using default value" console warning is reduced to a flag on the result.
- `OrganizationController.OrganizationController.InviteMember`: the invitation e-mail and the organization and inviter lookups that feed it are not modelled.
- The unique index on organization slugs is not modelled: two registrations in the same millisecond with the same name would collide.
- Mongoose reports every failing schema path; the model reports the first one in schema order.
- `ExecutionModel.CastDate`: `Date.parse` is a parameter (`parseDate`) of the cast, not modelled; an array's string form goes to it too.
- `ExecutionModel.CastStep`: a `null` duration or error is stored as missing, as Mongoose's `null` is not told apart from an absent path here; the `aiMetadata` sub-document is read as a whole rather than cast path by path.
- `findByIdAndDelete` in `removeMember` deletes by id; the model deletes the account the preceding organization-scoped lookup found, which is the same document.
- Lookups by e-mail apply the schema's `trim` and `lowercase` setters to the query value (`Auth.EmailKey`), as Mongoose does for query casting.
- `Auth.AuthService.Register`: when the user schema refuses the new owner, the organization created just before it is left behind. The code does this too, so the model keeps it.
