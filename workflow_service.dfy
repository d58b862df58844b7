/**
 * The workflow service: creating workflows from the AI's parse (with the
 * approval decision driven by the organization's confidence threshold) or by
 * hand, the draft -> active approval, activation, pausing, soft deletion and the
 * tenant-scoped listing. Every lookup is scoped to (id, organizationId).
 *
 * A new document goes through the schema (`CastWorkflow`); the store keeps
 * only records that passed it.
 */
module WorkflowService {
  import opened Wrappers
  import opened JsValue
  import opened WorkflowTypes
  import opened WorkflowModel
  import opened Store
  import opened Errors
  import opened WorkflowParser

  // ---------------------------------------------------------------------------
  // Creation from natural language
  // ---------------------------------------------------------------------------

  /** `parsed.confidence < threshold || requireApproval`, the comparison under `Number(...)`. */
  predicate RequiresApproval(confidence: Value, settings: Settings) {
    Below(confidence, settings.aiConfidenceThreshold) || settings.requireApproval
  }

  /** Approval is needed exactly when the organization always asks for it or the
      AI was less confident than the threshold; a confidence that is not a
      number never falls below it. */
  lemma ApprovalDecision(confidence: Value, settings: Settings)
    ensures settings.requireApproval ==> RequiresApproval(confidence, settings)
    ensures confidence.Num? ==>
              (RequiresApproval(confidence, settings) <==> confidence.n < settings.aiConfidenceThreshold || settings.requireApproval)
    ensures ToNum(confidence).None? ==> (RequiresApproval(confidence, settings) <==> settings.requireApproval)
  {
    if confidence.Num? {
      assert ToNum(confidence) == Some(confidence.n);
    }
  }

  /** Raising the threshold never lets a workflow skip approval that needed it before. */
  lemma ApprovalMonotone(confidence: Value, settings: Settings, threshold: real)
    requires threshold >= settings.aiConfidenceThreshold
    ensures RequiresApproval(confidence, settings) ==>
              RequiresApproval(confidence, settings.(aiConfidenceThreshold := threshold))
  {
  }

  /** The document `createFromNaturalLanguage` hands to `Workflow.create`. */
  function NlDocument(organizationId: string, userId: string, naturalLanguage: string, name: Value,
                      parsed: Value, approval: bool): Value
  {
    Obj(map[
      "organizationId" := Str(organizationId),
      "createdBy" := Str(userId),
      "name" := Or(name, Str("Workflow: " + ToStr(Get(parsed, "intent")))),
      "naturalLanguage" := Str(naturalLanguage),
      "trigger" := Get(parsed, "trigger"),
      "conditions" := Or(Get(parsed, "conditions"), Arr([])),
      "actions" := Get(parsed, "actions"),
      "aiGenerated" := Bool(true),
      "aiConfidence" := Get(parsed, "confidence"),
      "aiExplanation" := Get(parsed, "reasoning"),
      "status" := Str(if approval then Draft.Name() else Active.Name())])
  }

  /** A workflow created from the AI's parse is a draft exactly when approval
      is required, and active otherwise. */
  lemma NlWorkflowStatus(id: string, organizationId: string, userId: string, naturalLanguage: string, name: Value, parsed: Value, approval: bool)
    requires id != ""
    ensures var r := CastWorkflow(id, NlDocument(organizationId, userId, naturalLanguage, name, parsed, approval));
            r.Success? ==> r.value.status == (if approval then Draft else Active)
  {
    var doc := NlDocument(organizationId, userId, naturalLanguage, name, parsed, approval);
    var status := if approval then Draft else Active;
    assert Get(doc, "status") == Str(status.Name());
    CastKeepsStatus(id, doc, status);
  }

  /** It is marked AI-generated. */
  lemma NlWorkflowAi(id: string, organizationId: string, userId: string, naturalLanguage: string, name: Value, parsed: Value, approval: bool)
    requires id != ""
    ensures var r := CastWorkflow(id, NlDocument(organizationId, userId, naturalLanguage, name, parsed, approval));
            r.Success? ==> r.value.aiGenerated
  {
    var doc := NlDocument(organizationId, userId, naturalLanguage, name, parsed, approval);
    assert Get(doc, "aiGenerated") == Bool(true);
    CastKeepsAiGenerated(id, doc, true);
  }

  /** It belongs to the caller's organization... */
  lemma NlWorkflowOrganization(id: string, organizationId: string, userId: string, naturalLanguage: string, name: Value, parsed: Value, approval: bool)
    requires id != ""
    ensures var r := CastWorkflow(id, NlDocument(organizationId, userId, naturalLanguage, name, parsed, approval));
            r.Success? ==> r.value.organizationId == organizationId
  {
    var doc := NlDocument(organizationId, userId, naturalLanguage, name, parsed, approval);
    assert Get(doc, "organizationId") == Str(organizationId);
  }

  /** ...and was created by the caller. */
  lemma NlWorkflowCreator(id: string, organizationId: string, userId: string, naturalLanguage: string, name: Value, parsed: Value, approval: bool)
    requires id != ""
    ensures var r := CastWorkflow(id, NlDocument(organizationId, userId, naturalLanguage, name, parsed, approval));
            r.Success? ==> r.value.createdBy == userId
  {
    var doc := NlDocument(organizationId, userId, naturalLanguage, name, parsed, approval);
    assert Get(doc, "createdBy") == Str(userId);
  }

  /** It is named after the intent when no name was given. */
  lemma NlWorkflowName(id: string, organizationId: string, userId: string, naturalLanguage: string, name: Value, parsed: Value, approval: bool)
    requires id != ""
    ensures var r := CastWorkflow(id, NlDocument(organizationId, userId, naturalLanguage, name, parsed, approval));
            && (r.Success? && !Truthy(name) ==> r.value.name == Trim("Workflow: " + ToStr(Get(parsed, "intent"))))
            && (r.Success? && Truthy(name) && name.Str? ==> r.value.name == Trim(name.s))
  {
    var doc := NlDocument(organizationId, userId, naturalLanguage, name, parsed, approval);
    assert Get(doc, "name") == Or(name, Str("Workflow: " + ToStr(Get(parsed, "intent"))));
  }

  /** It has no conditions when the parse gave none... */
  lemma NlWorkflowConditions(id: string, organizationId: string, userId: string, naturalLanguage: string, name: Value, parsed: Value, approval: bool)
    requires id != ""
    ensures var r := CastWorkflow(id, NlDocument(organizationId, userId, naturalLanguage, name, parsed, approval));
            r.Success? && !Truthy(Get(parsed, "conditions")) ==> r.value.conditions == []
  {
    var doc := NlDocument(organizationId, userId, naturalLanguage, name, parsed, approval);
    assert Get(doc, "conditions") == Or(Get(parsed, "conditions"), Arr([]));
  }

  /** ...and a parse whose `conditions` is a single object stores that one
      condition. */
  lemma NlWorkflowSingleCondition(id: string, organizationId: string, userId: string, naturalLanguage: string, name: Value, parsed: Value, approval: bool)
    requires id != ""
    ensures var r := CastWorkflow(id, NlDocument(organizationId, userId, naturalLanguage, name, parsed, approval));
            r.Success? && Get(parsed, "conditions").Obj? ==>
              |r.value.conditions| == 1 && CastCondition(Get(parsed, "conditions")) == Success(r.value.conditions[0])
  {
    var doc := NlDocument(organizationId, userId, naturalLanguage, name, parsed, approval);
    assert Get(doc, "conditions") == Or(Get(parsed, "conditions"), Arr([]));
  }

  /** ...and it records the AI's numeric confidence. */
  lemma NlWorkflowConfidence(id: string, organizationId: string, userId: string, naturalLanguage: string, name: Value, parsed: Value, approval: bool)
    requires id != ""
    ensures var r := CastWorkflow(id, NlDocument(organizationId, userId, naturalLanguage, name, parsed, approval));
            r.Success? && Get(parsed, "confidence").Num? ==> r.value.aiConfidence == Some(Get(parsed, "confidence").n)
  {
    var doc := NlDocument(organizationId, userId, naturalLanguage, name, parsed, approval);
    assert Get(doc, "aiConfidence") == Get(parsed, "confidence");
  }

  /** The answer of `createFromNaturalLanguage`. */
  datatype Created = Created(workflow: Workflow, requiresApproval: bool, confidence: Value, reasoning: Value, tokensUsed: nat)

  /** The organization after one more AI call this month. */
  function CountAiCall(o: Organization): (r: Organization)
    ensures r.usage.aiCallsThisMonth == o.usage.aiCallsThisMonth + 1
    ensures r.(usage := o.usage) == o
    ensures r.usage.workflowsExecuted == o.usage.workflowsExecuted && r.usage.storageUsedMB == o.usage.storageUsedMB
  {
    o.(usage := o.usage.(aiCallsThisMonth := o.usage.aiCallsThisMonth + 1))
  }

  // ---------------------------------------------------------------------------
  // Manual creation
  // ---------------------------------------------------------------------------

  /** `{ organizationId, createdBy: userId, ...data, aiGenerated: false, status: 'draft' }`. */
  function ManualDocument(organizationId: string, userId: string, data: Value): Value {
    Obj(map["organizationId" := Str(organizationId), "createdBy" := Str(userId)]
        + Spread(data)
        + map["aiGenerated" := Bool(false), "status" := Str(Draft.Name())])
  }

  /** A hand-made workflow is always a non-AI draft, whatever the data says. */
  lemma ManualWorkflowIsDraft(id: string, organizationId: string, userId: string, data: Value)
    requires id != ""
    ensures var r := CastWorkflow(id, ManualDocument(organizationId, userId, data));
            r.Success? ==> r.value.status == Draft && !r.value.aiGenerated
  {
    var doc := ManualDocument(organizationId, userId, data);
    assert Get(doc, "status") == Str(Draft.Name());
    assert Get(doc, "aiGenerated") == Bool(false);
    CastKeepsStatus(id, doc, Draft);
    CastKeepsAiGenerated(id, doc, false);
  }

  /** It belongs to the caller's organization and user unless the data names
      others: keys in the data win over the two set before the spread. */
  lemma ManualWorkflowOwner(id: string, organizationId: string, userId: string, data: Value)
    requires id != ""
    ensures var r := CastWorkflow(id, ManualDocument(organizationId, userId, data));
            && (r.Success? && "organizationId" !in Spread(data) ==> r.value.organizationId == organizationId)
            && (r.Success? && "createdBy" !in Spread(data) ==> r.value.createdBy == userId)
  {
    var doc := ManualDocument(organizationId, userId, data);
    if "organizationId" !in Spread(data) {
      assert Get(doc, "organizationId") == Str(organizationId);
    }
    if "createdBy" !in Spread(data) {
      assert Get(doc, "createdBy") == Str(userId);
    }
  }

  // ---------------------------------------------------------------------------
  // Listing
  // ---------------------------------------------------------------------------

  /** The query-string filters of `getAll`; `limit` and `skip` come through `parseInt`. */
  datatype Filters = Filters(status: Value, createdBy: Value, limit: Option<nat>, skip: Option<nat>)

  /** How Mongoose reads one query-string filter against a record's value: a
      string must equal it, and a repeated parameter, which arrives as an
      array, becomes `$in` over its elements. */
  predicate FilterAdmits(filter: Value, actual: string) {
    if filter.Arr? then Str(actual) in filter.items else filter == Str(actual)
  }

  /** The query `{ organizationId }`, plus `status` and `createdBy` when those filters are truthy. */
  predicate Listed(w: Workflow, organizationId: string, f: Filters) {
    && w.organizationId == organizationId
    && (Truthy(f.status) ==> FilterAdmits(f.status, w.status.Name()))
    && (Truthy(f.createdBy) ==> FilterAdmits(f.createdBy, w.createdBy))
  }

  /** What the filters mean: a record is listed when it belongs to the tenant
      and each filter given admits it. An empty string is no filter; a single
      value must be the record's own; a repeated parameter lists the records
      whose value is one of its elements, and the empty array lists none. */
  lemma ListedMeaning(w: Workflow, organizationId: string, f: Filters)
    ensures f.status == Absent && f.createdBy == Absent ==> (Listed(w, organizationId, f) <==> w.organizationId == organizationId)
    ensures f.status == Str("") && f.createdBy == Str("") ==> (Listed(w, organizationId, f) <==> w.organizationId == organizationId)
    ensures Listed(w, organizationId, f) ==> w.organizationId == organizationId
    ensures f.status.Str? && f.status.s != "" && Listed(w, organizationId, f) ==> w.status.Name() == f.status.s
    ensures f.createdBy.Str? && f.createdBy.s != "" && Listed(w, organizationId, f) ==> w.createdBy == f.createdBy.s
    ensures f.status.Arr? && Listed(w, organizationId, f) ==> exists i :: 0 <= i < |f.status.items| && f.status.items[i] == Str(w.status.Name())
    ensures f.createdBy.Arr? && Listed(w, organizationId, f) ==> exists i :: 0 <= i < |f.createdBy.items| && f.createdBy.items[i] == Str(w.createdBy)
    ensures f.status == Arr([]) || f.createdBy == Arr([]) ==> !Listed(w, organizationId, f)
    ensures && w.organizationId == organizationId
            && (!Truthy(f.status) || f.status == Str(w.status.Name()) || (f.status.Arr? && Str(w.status.Name()) in f.status.items))
            && (!Truthy(f.createdBy) || f.createdBy == Str(w.createdBy) || (f.createdBy.Arr? && Str(w.createdBy) in f.createdBy.items))
            ==> Listed(w, organizationId, f)
  {
  }

  /** The matching records in insertion order. */
  function Matching(ws: seq<Workflow>, organizationId: string, f: Filters): (r: seq<Workflow>)
    ensures |r| <= |ws|
    ensures forall w :: w in r <==> w in ws && Listed(w, organizationId, f)
  {
    if ws == [] then []
    else
      var rest := Matching(ws[1..], organizationId, f);
      assert forall w :: w in ws <==> w == ws[0] || w in ws[1..];
      if Listed(ws[0], organizationId, f) then [ws[0]] + rest else rest
  }

  /** Filtering keeps store order: the matches of an earlier part of the store
      come before those of a later part, and a single record matches on its own
      exactly when it is listed. */
  lemma {:induction false} MatchingInOrder(a: seq<Workflow>, b: seq<Workflow>, organizationId: string, f: Filters)
    ensures Matching(a + b, organizationId, f) == Matching(a, organizationId, f) + Matching(b, organizationId, f)
    ensures forall w :: Matching([w], organizationId, f) == if Listed(w, organizationId, f) then [w] else []
  {
    if a != [] {
      assert (a + b)[1..] == a[1..] + b;
      MatchingInOrder(a[1..], b, organizationId, f);
    } else {
      assert a + b == b;
    }
    forall w ensures Matching([w], organizationId, f) == if Listed(w, organizationId, f) then [w] else [] {
      assert [w][1..] == [];
    }
  }

  /** The newest record that matches heads the first page. */
  lemma NewestFirst(ws: seq<Workflow>, w: Workflow, organizationId: string, f: Filters)
    requires Listed(w, organizationId, f) && SkipOf(f) == 0
    ensures GetAll(ws + [w], organizationId, f).workflows[0] == w
  {
    MatchingInOrder(ws, [w], organizationId, f);
    var m := Matching(ws + [w], organizationId, f);
    assert m[|m| - 1] == w;
    assert Reverse(m)[0] == w;
  }

  function Reverse<T>(s: seq<T>): (r: seq<T>)
    ensures |r| == |s| && forall i :: 0 <= i < |s| ==> r[i] == s[|s| - 1 - i]
  {
    if s == [] then [] else Reverse(s[1..]) + [s[0]]
  }

  /** `filters.limit || 50`. */
  function LimitOf(f: Filters): nat {
    if f.limit.Some? && f.limit.value != 0 then f.limit.value else 50
  }

  /** `filters.skip || 0`. */
  function SkipOf(f: Filters): nat {
    if f.skip.Some? then f.skip.value else 0
  }

  /** `.skip(skip).limit(limit)` on a sequence. */
  function Window<T>(s: seq<T>, skip: nat, limit: nat): (r: seq<T>)
    ensures |r| <= limit
    ensures skip <= |s| ==> |r| == if |s| - skip < limit then |s| - skip else limit
    ensures forall i :: 0 <= i < |r| ==> skip + i < |s| && r[i] == s[skip + i]
  {
    if skip >= |s| then [] else if |s| - skip <= limit then s[skip..] else s[skip..skip + limit]
  }

  datatype Listing = Listing(workflows: seq<Workflow>, total: nat)

  /** `getAll`: the tenant's records matching the filters, newest first (records
      are created in insertion order), one page of them, and the number of
      matches in all. */
  function GetAll(ws: seq<Workflow>, organizationId: string, f: Filters): (r: Listing)
    ensures forall w :: w in r.workflows ==> w in ws && Listed(w, organizationId, f)
    ensures |r.workflows| <= LimitOf(f) && (f.limit.None? ==> |r.workflows| <= 50)
    ensures r.total == |Matching(ws, organizationId, f)|
    ensures r.workflows == Window(Reverse(Matching(ws, organizationId, f)), SkipOf(f), LimitOf(f))
  {
    var matched := Matching(ws, organizationId, f);
    var page := Window(Reverse(matched), SkipOf(f), LimitOf(f));
    assert forall w :: w in page ==> w in matched by {
      forall w | w in page ensures w in matched {
        var i :| 0 <= i < |page| && page[i] == w;
        assert page[i] == matched[|matched| - 1 - (SkipOf(f) + i)];
      }
    }
    Listing(page, |matched|)
  }

  /** Two consecutive pages make up the page that spans both. */
  lemma {:induction false} PagesTile<T>(s: seq<T>, skip: nat, a: nat, b: nat)
    ensures Window(s, skip, a) + Window(s, skip + a, b) == Window(s, skip, a + b)
  {
    var left, right, whole := Window(s, skip, a), Window(s, skip + a, b), Window(s, skip, a + b);
    assert |left| + |right| == |whole|;
    forall i | 0 <= i < |whole|
      ensures (left + right)[i] == whole[i]
    {
      if i >= |left| {
        assert |left| == a;
        assert right[i - a] == s[skip + a + (i - a)];
      }
    }
  }

  /** Another tenant's record changes neither the page nor the total of a listing. */
  lemma {:induction false} OtherTenantsInvisible(ws: seq<Workflow>, w: Workflow, organizationId: string, f: Filters)
    requires w.organizationId != organizationId
    ensures GetAll(ws + [w], organizationId, f) == GetAll(ws, organizationId, f)
  {
    MatchingIgnores(ws, w, organizationId, f);
  }

  lemma {:induction false} MatchingIgnores(ws: seq<Workflow>, w: Workflow, organizationId: string, f: Filters)
    requires !Listed(w, organizationId, f)
    ensures Matching(ws + [w], organizationId, f) == Matching(ws, organizationId, f)
  {
    if ws == [] {
      assert [w][1..] == [];
    } else {
      assert (ws + [w])[1..] == ws[1..] + [w];
      MatchingIgnores(ws[1..], w, organizationId, f);
    }
  }

  // ---------------------------------------------------------------------------
  // The service over the store
  // ---------------------------------------------------------------------------

  class Service {
    const db: Db

    constructor (db: Db)
      ensures this.db == db
    {
      this.db := db;
    }

    /** `getById`: the tenant's record, or 404. */
    function GetById(workflowId: string, organizationId: string): (r: Result<Workflow, Err>)
      reads db
      ensures r.Success? <==> db.FindWorkflow(workflowId, organizationId).Some?
      ensures r.Success? ==> r.value in db.workflows && r.value.id == workflowId && r.value.organizationId == organizationId
      ensures r.Failure? ==> r.error == AppError(404, "Workflow not found")
    {
      match db.FindWorkflow(workflowId, organizationId)
      case Some(k) => Success(db.workflows[k])
      case None => Failure(AppError(404, "Workflow not found"))
    }

    /** `Workflow.create(doc)`: the document goes through the schema; a refusal
        is a validation error and stores nothing, otherwise the record is
        appended. */
    method Insert(doc: Value, newId: string) returns (r: Result<Workflow, Err>)
      requires newId != "" && db.Valid()
      modifies db
      ensures db.Valid() && db.organizations == old(db.organizations)
      ensures db.users == old(db.users) && db.invitations == old(db.invitations)
      ensures var cast := CastWorkflow(newId, doc);
              && (cast.Failure? ==> r == Failure(Invalid(cast.error)) && db.workflows == old(db.workflows))
              && (cast.Success? ==> r == Success(cast.value) && db.workflows == old(db.workflows) + [cast.value])
    {
      var cast := CastWorkflow(newId, doc);
      if cast.Failure? {
        return Failure(Invalid(cast.error));
      }
      Append(cast.value);
      r := Success(cast.value);
    }

    /** Appends a record the schema accepted. */
    method Append(w: Workflow)
      requires db.Valid() && WellFormed(w)
      modifies db
      ensures db.Valid() && db.workflows == old(db.workflows) + [w]
      ensures db.organizations == old(db.organizations) && db.users == old(db.users) && db.invitations == old(db.invitations)
    {
      WellFormedAfterAppend(db.workflows, w);
      db.workflows := db.workflows + [w];
    }

    /** `$inc: { 'usage.aiCallsThisMonth': 1 }` on the organization. */
    method RecordAiCall(organizationId: string)
      requires db.Valid() && organizationId in db.organizations
      modifies db
      ensures db.Valid() && db.organizations == old(db.organizations)[organizationId := CountAiCall(old(db.organizations)[organizationId])]
      ensures db.workflows == old(db.workflows) && db.users == old(db.users) && db.invitations == old(db.invitations)
    {
      db.organizations := db.organizations[organizationId := CountAiCall(db.organizations[organizationId])];
    }

    /** `createFromNaturalLanguage`: parse, look the organization up, decide on
        approval, create the workflow and count one AI call. `reply` is what the
        AI call returned and `newId` the id the store gives the new record. */
    method CreateFromNaturalLanguage(organizationId: string, userId: string, naturalLanguage: string, name: Value,
                                     reply: Result<AiReply, Err>, newId: string)
      returns (r: Result<Created, Err>)
      requires newId != "" && db.Valid()
      modifies db
      ensures db.Valid() && db.users == old(db.users) && db.invitations == old(db.invitations)
      ensures ParseNaturalLanguage(reply).Failure? ==>
                r == Failure(ParseNaturalLanguage(reply).error) && unchanged(db)
      ensures ParseNaturalLanguage(reply).Success? && organizationId !in old(db.organizations) ==>
                r == Failure(AppError(404, "Organization not found")) && unchanged(db)
      ensures ParseNaturalLanguage(reply).Success? && organizationId in old(db.organizations) ==>
                var parsed := ParseNaturalLanguage(reply).value;
                var org := old(db.organizations)[organizationId];
                var approval := RequiresApproval(Get(parsed.workflow, "confidence"), org.settings);
                var cast := CastWorkflow(newId, NlDocument(organizationId, userId, naturalLanguage, name, parsed.workflow, approval));
                && (cast.Failure? ==>
                      && r == Failure(Invalid(cast.error))
                      && db.workflows == old(db.workflows) && db.organizations == old(db.organizations))
                && (cast.Success? ==>
                      && r == Success(Created(cast.value, approval, Get(parsed.workflow, "confidence"),
                                              Get(parsed.workflow, "reasoning"), parsed.tokensUsed))
                      && db.workflows == old(db.workflows) + [cast.value]
                      && db.organizations == old(db.organizations)[organizationId := CountAiCall(org)])
    {
      var parsed := ParseNaturalLanguage(reply);
      if parsed.Failure? {
        return Failure(parsed.error);
      }
      if organizationId !in db.organizations {
        return Failure(AppError(404, "Organization not found"));
      }
      var org := db.organizations[organizationId];
      var approval := RequiresApproval(Get(parsed.value.workflow, "confidence"), org.settings);
      var created := Insert(NlDocument(organizationId, userId, naturalLanguage, name, parsed.value.workflow, approval), newId);
      if created.Failure? {
        return Failure(created.error);
      }
      RecordAiCall(organizationId);
      r := Success(Created(created.value, approval, Get(parsed.value.workflow, "confidence"),
                           Get(parsed.value.workflow, "reasoning"), parsed.value.tokensUsed));
    }

    /** `createManual`: the data spread between the owner fields and the forced
        `aiGenerated: false, status: 'draft'`. */
    method CreateManual(organizationId: string, userId: string, data: Value, newId: string)
      returns (r: Result<Workflow, Err>)
      requires newId != "" && db.Valid()
      modifies db
      ensures db.Valid() && db.organizations == old(db.organizations)
      ensures db.users == old(db.users) && db.invitations == old(db.invitations)
      ensures var cast := CastWorkflow(newId, ManualDocument(organizationId, userId, data));
              && (cast.Failure? ==> r == Failure(Invalid(cast.error)) && db.workflows == old(db.workflows))
              && (cast.Success? ==> r == Success(cast.value) && db.workflows == old(db.workflows) + [cast.value])
    {
      r := Insert(ManualDocument(organizationId, userId, data), newId);
    }

    /** `approve`: only a draft can be approved; it becomes active and records
        the approver. The approver id is cast as a reference, so an empty one is
        refused. */
    method Approve(workflowId: string, organizationId: string, userId: string) returns (r: Result<Workflow, Err>)
      requires db.Valid()
      modifies db
      ensures db.Valid() && db.organizations == old(db.organizations)
      ensures db.users == old(db.users) && db.invitations == old(db.invitations)
      ensures var k := old(db.FindWorkflow(workflowId, organizationId));
              && (k.None? ==> r == Failure(AppError(404, "Workflow not found")) && db.workflows == old(db.workflows))
              && (k.Some? && old(db.workflows)[k.value].status != Draft ==>
                    r == Failure(AppError(400, "Only draft workflows can be approved")) && db.workflows == old(db.workflows))
              && (k.Some? && old(db.workflows)[k.value].status == Draft && userId == "" ==>
                    r == Failure(Invalid(CastError("approvedBy"))) && db.workflows == old(db.workflows))
              && (k.Some? && old(db.workflows)[k.value].status == Draft && userId != "" ==>
                    var w := old(db.workflows)[k.value].(approvedBy := Some(userId), status := Active);
                    r == Success(w) && db.workflows == old(db.workflows)[k.value := w])
    {
      var k := db.FindWorkflow(workflowId, organizationId);
      if k.None? {
        return Failure(AppError(404, "Workflow not found"));
      }
      var w := db.workflows[k.value];
      if w.status != Draft {
        return Failure(AppError(400, "Only draft workflows can be approved"));
      }
      if userId == "" {
        return Failure(Invalid(CastError("approvedBy")));
      }
      var approved := w.(approvedBy := Some(userId), status := Active);
      assert w in db.workflows;
      ReviewKeepsWellFormed(w, Some(userId), Active);
      WellFormedAfterUpdate(db.workflows, k.value, approved);
      db.workflows := db.workflows[k.value := approved];
      r := Success(approved);
    }

    /** `findOneAndUpdate({ _id, organizationId }, { status })`: the status is set
        whatever it was before, or 404. */
    method SetStatus(workflowId: string, organizationId: string, status: WorkflowStatus) returns (r: Result<Workflow, Err>)
      requires db.Valid()
      modifies db
      ensures db.Valid() && db.organizations == old(db.organizations)
      ensures db.users == old(db.users) && db.invitations == old(db.invitations)
      ensures var k := old(db.FindWorkflow(workflowId, organizationId));
              && (k.None? ==> r == Failure(AppError(404, "Workflow not found")) && db.workflows == old(db.workflows))
              && (k.Some? ==>
                    var w := old(db.workflows)[k.value].(status := status);
                    r == Success(w) && db.workflows == old(db.workflows)[k.value := w])
    {
      var k := db.FindWorkflow(workflowId, organizationId);
      if k.None? {
        return Failure(AppError(404, "Workflow not found"));
      }
      var w := db.workflows[k.value];
      var updated := w.(status := status);
      assert w in db.workflows;
      ReviewKeepsWellFormed(w, w.approvedBy, status);
      assert updated == w.(approvedBy := w.approvedBy, status := status);
      WellFormedAfterUpdate(db.workflows, k.value, updated);
      db.workflows := db.workflows[k.value := updated];
      r := Success(updated);
    }

    /** `activate`: status active, from any status. */
    method Activate(workflowId: string, organizationId: string) returns (r: Result<Workflow, Err>)
      requires db.Valid()
      modifies db
      ensures db.Valid() && db.organizations == old(db.organizations)
      ensures db.users == old(db.users) && db.invitations == old(db.invitations)
      ensures var k := old(db.FindWorkflow(workflowId, organizationId));
              && (k.None? ==> r == Failure(AppError(404, "Workflow not found")) && db.workflows == old(db.workflows))
              && (k.Some? ==>
                    var w := old(db.workflows)[k.value].(status := Active);
                    r == Success(w) && db.workflows == old(db.workflows)[k.value := w])
    {
      r := SetStatus(workflowId, organizationId, Active);
    }

    /** `pause`: status paused, from any status. */
    method Pause(workflowId: string, organizationId: string) returns (r: Result<Workflow, Err>)
      requires db.Valid()
      modifies db
      ensures db.Valid() && db.organizations == old(db.organizations)
      ensures db.users == old(db.users) && db.invitations == old(db.invitations)
      ensures var k := old(db.FindWorkflow(workflowId, organizationId));
              && (k.None? ==> r == Failure(AppError(404, "Workflow not found")) && db.workflows == old(db.workflows))
              && (k.Some? ==>
                    var w := old(db.workflows)[k.value].(status := Paused);
                    r == Success(w) && db.workflows == old(db.workflows)[k.value := w])
    {
      r := SetStatus(workflowId, organizationId, Paused);
    }

    /** `delete`: a soft delete; the record stays, archived. */
    method Delete(workflowId: string, organizationId: string) returns (r: Result<Workflow, Err>)
      requires db.Valid()
      modifies db
      ensures db.Valid() && db.organizations == old(db.organizations)
      ensures db.users == old(db.users) && db.invitations == old(db.invitations)
      ensures |db.workflows| == |old(db.workflows)|
      ensures var k := old(db.FindWorkflow(workflowId, organizationId));
              && (k.None? ==> r == Failure(AppError(404, "Workflow not found")) && db.workflows == old(db.workflows))
              && (k.Some? ==>
                    var w := old(db.workflows)[k.value].(status := Archived);
                    r == Success(w) && db.workflows == old(db.workflows)[k.value := w])
    {
      r := SetStatus(workflowId, organizationId, Archived);
    }
  }
}
