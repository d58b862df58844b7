/**
 * The trigger handler: a webhook call or a manual run first looks the workflow
 * up (scoped to the tenant, and it must be active; a webhook also needs a
 * webhook trigger) and then appends one job to the workflow queue. The queue is
 * a sequence of jobs; whether the queue accepts the job is a parameter.
 */
module TriggerHandler {
  import opened Wrappers
  import opened JsValue
  import opened WorkflowTypes
  import opened WorkflowModel
  import opened Store
  import opened Errors

  /** A queued execution request. */
  datatype Job = Job(workflowId: string, organizationId: string, triggerData: Value)

  /** The answer `{ queued: true, workflowId }`. */
  datatype Queued = Queued(workflowId: string)

  /** The manual-trigger query: this id, this tenant, status active. */
  predicate ManualTarget(w: Workflow, id: string, organizationId: string) {
    w.id == id && w.organizationId == organizationId && w.status == Active
  }

  /** The webhook query adds `trigger.type` webhook to the manual one. */
  predicate WebhookTarget(w: Workflow, id: string, organizationId: string) {
    ManualTarget(w, id, organizationId) && w.trigger.kind == Webhook
  }

  predicate Target(w: Workflow, id: string, organizationId: string, webhook: bool) {
    if webhook then WebhookTarget(w, id, organizationId) else ManualTarget(w, id, organizationId)
  }

  /** `Workflow.findOne(query)` for the webhook (`webhook`) or the manual query. */
  function FindTarget(ws: seq<Workflow>, id: string, organizationId: string, webhook: bool): (r: Option<nat>)
    ensures r.Some? ==> r.value < |ws| && Target(ws[r.value], id, organizationId, webhook)
    ensures r.None? ==> forall k :: 0 <= k < |ws| ==> !Target(ws[k], id, organizationId, webhook)
  {
    FirstIndex(ws, (w: Workflow) => Target(w, id, organizationId, webhook), 0)
  }

  /** Whatever a webhook may start, a manual run may start as well. */
  lemma WebhookTargetsAreManualTargets(ws: seq<Workflow>, id: string, organizationId: string)
    ensures FindTarget(ws, id, organizationId, true).Some? ==> FindTarget(ws, id, organizationId, false).Some?
  {
    var k := FindTarget(ws, id, organizationId, true);
    if k.Some? {
      assert Target(ws[k.value], id, organizationId, false);
    }
  }

  /** Document ids are unique. */
  predicate UniqueIds(ws: seq<Workflow>) {
    forall i, j :: 0 <= i < j < |ws| ==> ws[i].id != ws[j].id
  }

  /** With unique ids, the workflow a trigger queued is the one the engine's
      tenant-scoped lookup finds, and it is active: the job passes the engine's
      guards as long as the store does not change in between. */
  lemma QueuedWorkflowPassesEngineGuards(db: Db, id: string, organizationId: string, webhook: bool)
    requires UniqueIds(db.workflows)
    requires FindTarget(db.workflows, id, organizationId, webhook).Some?
    ensures db.FindWorkflow(id, organizationId) == FindTarget(db.workflows, id, organizationId, webhook)
    ensures db.workflows[db.FindWorkflow(id, organizationId).value].status == Active
  {
    var t := FindTarget(db.workflows, id, organizationId, webhook).value;
    assert db.workflows[t].id == id && db.workflows[t].organizationId == organizationId;
    var k := db.FindWorkflow(id, organizationId);
    assert k.Some?;
    assert k.value == t;
  }

  class Handler {
    const db: Db
    var queue: seq<Job>

    constructor (db: Db)
      ensures this.db == db && queue == []
    {
      this.db := db;
      queue := [];
    }

    /** Appends one job; `failure` is the queue's refusal, if it refuses, which
        is re-thrown with nothing queued. */
    method Enqueue(job: Job, failure: Option<string>) returns (err: Option<Err>)
      modifies this
      ensures failure.Some? ==> err == Some(Thrown(failure.value)) && queue == old(queue)
      ensures failure.None? ==> err == None && queue == old(queue) + [job]
    {
      if failure.Some? {
        return Some(Thrown(failure.value));
      }
      queue := queue + [job];
      err := None;
    }

    /** `handleWebhook`: no matching workflow answers `null` and queues nothing;
        otherwise one job carrying the payload is queued and
        `{ queued: true, workflowId }` is the answer. */
    method HandleWebhook(workflowId: string, organizationId: string, payload: Value, queueFailure: Option<string>)
      returns (r: Result<Option<Queued>, Err>)
      modifies this
      ensures var k := FindTarget(db.workflows, workflowId, organizationId, true);
              && (k.None? ==> r == Success(None) && queue == old(queue))
              && (k.Some? && queueFailure.Some? ==> r == Failure(Thrown(queueFailure.value)) && queue == old(queue))
              && (k.Some? && queueFailure.None? ==>
                    && r == Success(Some(Queued(workflowId)))
                    && queue == old(queue) + [Job(db.workflows[k.value].id, organizationId, payload)])
    {
      var k := FindTarget(db.workflows, workflowId, organizationId, true);
      if k.None? {
        return Success(None);
      }
      var err := Enqueue(Job(db.workflows[k.value].id, organizationId, payload), queueFailure);
      if err.Some? {
        return Failure(err.value);
      }
      r := Success(Some(Queued(workflowId)));
    }

    /** `handleManual`: the payload defaults to `{}`; no matching workflow throws
        "Workflow not found or not active" and queues nothing. */
    method HandleManual(workflowId: string, organizationId: string, payload: Value, queueFailure: Option<string>)
      returns (r: Result<Queued, Err>)
      modifies this
      ensures var k := FindTarget(db.workflows, workflowId, organizationId, false);
              var data := if payload.Absent? then Obj(map[]) else payload;
              && (k.None? ==> r == Failure(Thrown("Workflow not found or not active")) && queue == old(queue))
              && (k.Some? && queueFailure.Some? ==> r == Failure(Thrown(queueFailure.value)) && queue == old(queue))
              && (k.Some? && queueFailure.None? ==>
                    && r == Success(Queued(workflowId))
                    && queue == old(queue) + [Job(db.workflows[k.value].id, organizationId, data)])
    {
      var data := if payload.Absent? then Obj(map[]) else payload;
      var k := FindTarget(db.workflows, workflowId, organizationId, false);
      if k.None? {
        return Failure(Thrown("Workflow not found or not active"));
      }
      var err := Enqueue(Job(db.workflows[k.value].id, organizationId, data), queueFailure);
      if err.Some? {
        return Failure(err.value);
      }
      r := Success(Queued(workflowId));
    }
  }
}
