/** The automation store: connected platforms, deployed workflows, a bounded newest-first log
    of workflow runs, and the template catalogue workflows are deployed from. */
module AutomationStore {
  import opened Common

  datatype PlatformType = Zapier | Make | Native
  datatype PlatformStatus = Connected | Disconnected | PlatformError

  datatype TaskUsage = TaskUsage(current: int, limit: int, resetDate: string)

  datatype Platform = Platform(
    id: string,
    name: string,
    kind: PlatformType,
    status: PlatformStatus,
    apiKey: Option<string>,
    webhookUrl: Option<string>,
    lastSync: string,
    taskUsage: TaskUsage)

  datatype TriggerType = Webhook | Schedule | PlatformEvent
  datatype Trigger = Trigger(kind: TriggerType, event: string, webhookUrl: Option<string>)

  datatype StepStatus = Pending | StepSuccess | StepFailed | Skipped
  datatype WorkflowAction = WorkflowAction(id: string, platform: string, kind: string, order: int, retryCount: int, status: StepStatus)

  datatype WorkflowStatus = Active | Paused | WorkflowError | Draft

  datatype Workflow = Workflow(
    id: string,
    name: string,
    platform: string,
    persona: seq<string>,
    trigger: Trigger,
    actions: seq<WorkflowAction>,
    status: WorkflowStatus,
    successRate: real,
    lastRun: string,
    totalRuns: int,
    avgProcessingTime: real,
    template: Option<bool>)

  /** The workflow part of a template: a workflow without its id, status, success rate, last
      run and run count. */
  datatype WorkflowFields = WorkflowFields(
    name: string,
    platform: string,
    persona: seq<string>,
    trigger: Trigger,
    actions: seq<WorkflowAction>,
    avgProcessingTime: real,
    template: Option<bool>)

  datatype Category = Onboarding | Nurture | ServiceCategory | Retention
  {
    function Slug(): string
    {
      match this
      case Onboarding => "onboarding"
      case Nurture => "nurture"
      case ServiceCategory => "service"
      case Retention => "retention"
    }
  }
  datatype Complexity = Simple | MediumComplexity | Complex

  datatype Template = Template(
    id: string,
    name: string,
    description: string,
    persona: string,
    category: Category,
    platforms: seq<string>,
    estimatedSetupTime: int,
    complexity: Complexity,
    workflow: WorkflowFields)

  datatype EventStatus = EventSuccess | EventFailed | Processing

  datatype Event = Event(
    id: string,
    workflowId: string,
    timestamp: string,
    status: EventStatus,
    processingTime: int,
    errorMessage: Option<string>,
    retryCount: int)

  /** The event log keeps the newest hundred events. */
  const MaxEvents: nat := 100

  /** `[event, ...events.slice(0, 99)]`. */
  function WithEvent(events: seq<Event>, event: Event): (r: seq<Event>)
    ensures |r| == Min(MaxEvents, |events| + 1)
    ensures r[0] == event
    ensures r[1..] == events[..|r| - 1]
  {
    [event] + SliceTo(events, MaxEvents - 1)
  }

  /** Only a log already at the bound loses an event, and then exactly its oldest one. */
  lemma WithEventDropsOldest(events: seq<Event>, event: Event)
    requires |events| <= MaxEvents
    ensures |events| < MaxEvents ==> WithEvent(events, event) == [event] + events
    ensures |events| == MaxEvents ==> WithEvent(events, event) == [event] + events[..|events| - 1]
  {
  }

  /** Every run in the log names a workflow the store knows. */
  ghost predicate EventsKnown(events: seq<Event>, workflows: seq<Workflow>)
  {
    forall i :: 0 <= i < |events| ==> exists w :: w in workflows && w.id == events[i].workflowId
  }

  function WithWorkflowStatus(workflows: seq<Workflow>, id: string, status: WorkflowStatus): (r: seq<Workflow>)
    ensures |r| == |workflows|
    ensures forall i :: 0 <= i < |r| && workflows[i].id == id ==> r[i] == workflows[i].(status := status)
    ensures forall i :: 0 <= i < |r| && workflows[i].id != id ==> r[i] == workflows[i]
  {
    MapWhere(workflows, (w: Workflow) => w.id == id, (w: Workflow) => w.(status := status))
  }

  /** Setting a status twice is setting it once; in particular pausing a paused workflow and
      resuming an active one change nothing further. */
  lemma WithWorkflowStatusIdempotent(workflows: seq<Workflow>, id: string, status: WorkflowStatus)
    ensures WithWorkflowStatus(WithWorkflowStatus(workflows, id, status), id, status) == WithWorkflowStatus(workflows, id, status)
  {
  }

  /** A status update keeps the set of workflow ids, so events stay attached to known
      workflows. */
  lemma WithWorkflowStatusKeepsIds(workflows: seq<Workflow>, id: string, status: WorkflowStatus, events: seq<Event>)
    requires EventsKnown(events, workflows)
    ensures EventsKnown(events, WithWorkflowStatus(workflows, id, status))
  {
    var r := WithWorkflowStatus(workflows, id, status);
    forall i | 0 <= i < |events|
      ensures exists w :: w in r && w.id == events[i].workflowId
    {
      var w :| w in workflows && w.id == events[i].workflowId;
      var j :| 0 <= j < |workflows| && workflows[j] == w;
      assert r[j].id == w.id;
    }
  }

  function WithPlatformStatus(platforms: seq<Platform>, id: string, status: PlatformStatus): (r: seq<Platform>)
    ensures |r| == |platforms|
    ensures forall i :: 0 <= i < |r| && platforms[i].id == id ==> r[i] == platforms[i].(status := status)
    ensures forall i :: 0 <= i < |r| && platforms[i].id != id ==> r[i] == platforms[i]
  {
    MapWhere(platforms, (p: Platform) => p.id == id, (p: Platform) => p.(status := status))
  }

  /** The workflow a template deploys to: the template's workflow fields with a new id,
      status active, no runs, a zero success rate and a zero average processing time. */
  function Deployed(t: Template, id: string, now: string): (w: Workflow)
    ensures w.id == id && w.status == Active && w.lastRun == now
    ensures w.successRate == 0.0 && w.totalRuns == 0 && w.avgProcessingTime == 0.0
    ensures w.name == t.workflow.name && w.platform == t.workflow.platform && w.persona == t.workflow.persona
    ensures w.trigger == t.workflow.trigger && w.actions == t.workflow.actions && w.template == t.workflow.template
  {
    var f := t.workflow;
    Workflow(id, f.name, f.platform, f.persona, f.trigger, f.actions, Active, 0.0, now, 0, 0.0, f.template)
  }

  /** The run record a trigger logs before processing starts. */
  function Triggered(workflowId: string, id: string, now: string): (e: Event)
    ensures e.workflowId == workflowId && e.id == id && e.timestamp == now
    ensures e.status == Processing && e.processingTime == 0 && e.retryCount == 0 && e.errorMessage == None
  {
    Event(id, workflowId, now, Processing, 0, None, 0)
  }

  class AutomationStore {
    var platforms: seq<Platform>
    var workflows: seq<Workflow>
    var events: seq<Event>
    var templates: seq<Template>
    var isLoading: bool
    var selectedWorkflow: Option<Workflow>

    /** The log never holds more than a hundred events. */
    ghost predicate Valid()
      reads this
    {
      |events| <= MaxEvents
    }

    constructor()
      ensures Valid()
      ensures platforms == [] && workflows == [] && events == [] && templates == []
      ensures !isLoading && selectedWorkflow == None
    {
      platforms := [];
      workflows := [];
      events := [];
      templates := [];
      isLoading := false;
      selectedWorkflow := None;
    }

    method SetPlatforms(ps: seq<Platform>)
      requires Valid()
      modifies this
      ensures Valid()
      ensures platforms == ps
      ensures workflows == old(workflows) && events == old(events) && templates == old(templates)
      ensures isLoading == old(isLoading) && selectedWorkflow == old(selectedWorkflow)
    {
      platforms := ps;
    }

    method SetWorkflows(ws: seq<Workflow>)
      requires Valid()
      modifies this
      ensures Valid()
      ensures workflows == ws
      ensures platforms == old(platforms) && events == old(events) && templates == old(templates)
      ensures isLoading == old(isLoading) && selectedWorkflow == old(selectedWorkflow)
    {
      workflows := ws;
    }

    method SetTemplates(ts: seq<Template>)
      requires Valid()
      modifies this
      ensures Valid()
      ensures templates == ts
      ensures platforms == old(platforms) && workflows == old(workflows) && events == old(events)
      ensures isLoading == old(isLoading) && selectedWorkflow == old(selectedWorkflow)
    {
      templates := ts;
    }

    method SetSelectedWorkflow(w: Option<Workflow>)
      requires Valid()
      modifies this
      ensures Valid()
      ensures selectedWorkflow == w
      ensures platforms == old(platforms) && workflows == old(workflows) && events == old(events)
      ensures templates == old(templates) && isLoading == old(isLoading)
    {
      selectedWorkflow := w;
    }

    method AddEvent(event: Event)
      requires Valid()
      modifies this
      ensures Valid()
      ensures events == WithEvent(old(events), event)
      ensures platforms == old(platforms) && workflows == old(workflows) && templates == old(templates)
      ensures isLoading == old(isLoading) && selectedWorkflow == old(selectedWorkflow)
    {
      events := WithEvent(events, event);
    }

    method UpdateWorkflowStatus(id: string, status: WorkflowStatus)
      requires Valid()
      modifies this
      ensures Valid()
      ensures workflows == WithWorkflowStatus(old(workflows), id, status)
      ensures platforms == old(platforms) && events == old(events) && templates == old(templates)
      ensures isLoading == old(isLoading) && selectedWorkflow == old(selectedWorkflow)
    {
      workflows := WithWorkflowStatus(workflows, id, status);
    }

    method UpdatePlatformStatus(id: string, status: PlatformStatus)
      requires Valid()
      modifies this
      ensures Valid()
      ensures platforms == WithPlatformStatus(old(platforms), id, status)
      ensures workflows == old(workflows) && events == old(events) && templates == old(templates)
      ensures isLoading == old(isLoading) && selectedWorkflow == old(selectedWorkflow)
    {
      platforms := WithPlatformStatus(platforms, id, status);
    }

    method PauseWorkflow(id: string)
      requires Valid()
      modifies this
      ensures Valid()
      ensures workflows == WithWorkflowStatus(old(workflows), id, Paused)
      ensures platforms == old(platforms) && events == old(events) && templates == old(templates)
      ensures isLoading == old(isLoading) && selectedWorkflow == old(selectedWorkflow)
    {
      UpdateWorkflowStatus(id, Paused);
    }

    method ResumeWorkflow(id: string)
      requires Valid()
      modifies this
      ensures Valid()
      ensures workflows == WithWorkflowStatus(old(workflows), id, Active)
      ensures platforms == old(platforms) && events == old(events) && templates == old(templates)
      ensures isLoading == old(isLoading) && selectedWorkflow == old(selectedWorkflow)
    {
      UpdateWorkflowStatus(id, Active);
    }

    /** The effect of a deployment once its delay has passed: a known template appends exactly
        one workflow built from it, an unknown one changes no workflow; either way the loading
        flag, raised at the start, is down at the end. `id` and `now` stand for the clock. */
    method DeployTemplate(templateId: string, id: string, now: string)
      requires Valid()
      modifies this
      ensures Valid()
      ensures !isLoading
      ensures Find(old(templates), (t: Template) => t.id == templateId).None? ==> workflows == old(workflows)
      ensures Find(old(templates), (t: Template) => t.id == templateId).Some? ==>
                workflows == old(workflows) + [Deployed(Find(old(templates), (t: Template) => t.id == templateId).value, id, now)]
      ensures platforms == old(platforms) && events == old(events) && templates == old(templates)
      ensures selectedWorkflow == old(selectedWorkflow)
    {
      isLoading := true;
      var template := Find(templates, (t: Template) => t.id == templateId);
      if template.Some? {
        workflows := workflows + [Deployed(template.value, id, now)];
      }
      isLoading := false;
    }

    /** The synchronous part of a trigger: an unknown workflow logs nothing; a known one logs
        one run in progress, newest first. The simulated completion is not modelled. */
    method TriggerWorkflow(workflowId: string, id: string, now: string)
      requires Valid()
      modifies this
      ensures Valid()
      ensures (forall i :: 0 <= i < |old(workflows)| ==> old(workflows)[i].id != workflowId) ==> events == old(events)
      ensures (exists i :: 0 <= i < |old(workflows)| && old(workflows)[i].id == workflowId) ==>
                events == WithEvent(old(events), Triggered(workflowId, id, now))
      ensures platforms == old(platforms) && workflows == old(workflows) && templates == old(templates)
      ensures isLoading == old(isLoading) && selectedWorkflow == old(selectedWorkflow)
    {
      var workflow := Find(workflows, (w: Workflow) => w.id == workflowId);
      if workflow.None? {
        return;
      }
      AddEvent(Triggered(workflowId, id, now));
    }
  }
}
