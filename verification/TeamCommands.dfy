/**
 Every command that can be planned can be carried out: its events apply one
 after the other and leave a sound state for the scheduler.
 */
module TeamCommands {
  import opened Prelude
  import opened TeamModel
  import opened TeamPlan
  import opened TeamInvariant
  import opened TeamSchedule
  import Sorting

  // ---------- sorting dependencies ----------

  ghost predicate Ordered(ids: seq<TaskId>) {
    forall i, j | 0 <= i < j < |ids| :: ids[i] <= ids[j]
  }

  /** Planning stores the requested dependencies, in ascending order. */
  lemma SortOrdered(ids: seq<TaskId>)
    ensures Ordered(Sort(ids)) && multiset(Sort(ids)) == multiset(ids) && |Sort(ids)| == |ids|
  {
    Sorting.SortSorts(ByNumber(), ids);
    hide Sorting.Sort;
  }

  lemma {:induction false} DistinctOrdered(sorted: seq<TaskId>)
    requires Ordered(sorted) && DuplicateIn(sorted).None?
    ensures ValidateOrder(sorted).Ok?
  {
    if |sorted| >= 2 {
      DistinctOrdered(sorted[1..]);
    }
  }

  lemma {:induction false} AllKnown(d: TeamData, ids: seq<TaskId>)
    requires FirstUnknown(d, ids).None?
    ensures forall id | id in ids :: id in d.tasks
  {
    if ids != [] {
      AllKnown(d, ids[1..]);
    }
  }

  lemma PlannedSpecStorable(d: TeamData, task: TaskSpec)
    requires ValidateTaskSpec(d, task).Ok?
    ensures var spec := ValidateTaskSpec(d, task).value;
            ValidateStoredSpec(spec).Ok? && forall dep | dep in spec.dependencies :: dep in d.tasks
  {
    SortOrdered(task.dependencies);
    DistinctOrdered(Sort(task.dependencies));
    AllKnown(d, Sort(task.dependencies));
  }

  // ---------- applying short event lists ----------

  lemma ApplyFirst(d: TeamData, first: EventKind, rest: seq<EventKind>, limit: nat)
    requires Apply(d, first, limit).Ok?
    ensures ApplyAll(d, [first] + rest, limit) == ApplyAll(Apply(d, first, limit).value, rest, limit)
  {
    assert ([first] + rest)[1..] == rest;
  }

  lemma ApplyTwo(d: TeamData, a: EventKind, b: EventKind, limit: nat)
    requires Apply(d, a, limit).Ok?
    requires Apply(Apply(d, a, limit).value, b, limit).Ok?
    ensures ApplyAll(d, [a, b], limit) == Apply(Apply(d, a, limit).value, b, limit)
  {
    hide Apply;
    ApplyFirst(d, a, [b], limit);
    ApplyFirst(Apply(d, a, limit).value, b, [], limit);
    assert [a] + [b] == [a, b] && [b] + [] == [b];
  }

  lemma ApplyThree(d: TeamData, a: EventKind, b: EventKind, c: EventKind, limit: nat)
    requires Apply(d, a, limit).Ok?
    requires var d1 := Apply(d, a, limit).value; Apply(d1, b, limit).Ok? && Apply(Apply(d1, b, limit).value, c, limit).Ok?
    ensures ApplyAll(d, [a, b, c], limit) == Apply(Apply(Apply(d, a, limit).value, b, limit).value, c, limit)
  {
    hide Apply;
    ApplyFirst(d, a, [b, c], limit);
    ApplyTwo(Apply(d, a, limit).value, b, c, limit);
    assert [a] + [b, c] == [a, b, c];
  }

  // ---------- commands that finish or requeue an agent ----------

  lemma CompletionEffect(d: TeamData, t: TaskId, a: AgentId, capsule: Capsule, limit: nat)
    requires t in d.tasks && TaskOwned(d, t) && d.tasks[t].owner == Some(a) && d.agents[a].status == Active
    requires d.tasks[t].completion.None? && ValidateCapsule(capsule).Ok?
    ensures ApplyAll(d, [CapsuleSubmitted(t, a, capsule), TaskDone(t), AgentDone(a)], limit)
            == Ok(Move(d, t, Succeeded, Some(capsule), a, AgentSucceeded))
  {
    hide ValidateCapsule;
    var d1 := PutTask(d, t, d.tasks[t].(completion := Some(capsule)));
    var d2 := SetTaskStatus(d1, t, Succeeded);
    assert Apply(d, CapsuleSubmitted(t, a, capsule), limit) == Ok(d1);
    assert Apply(d1, TaskDone(t), limit) == Ok(d2);
    assert Apply(d2, AgentDone(a), limit) == Ok(SetAgentStatus(d2, a, AgentSucceeded));
    assert d2.tasks == Move(d, t, Succeeded, Some(capsule), a, AgentSucceeded).tasks;
    ApplyThree(d, CapsuleSubmitted(t, a, capsule), TaskDone(t), AgentDone(a), limit);
  }

  lemma FailureEffect(d: TeamData, t: TaskId, a: AgentId, reason: Text, limit: nat)
    requires t in d.tasks && TaskOwned(d, t) && d.tasks[t].owner == Some(a) && d.agents[a].status == Active
    requires ValidateReason(reason).Ok?
    ensures ApplyAll(d, [TaskFailure(t, reason), AgentFailure(a)], limit)
            == Ok(Move(d, t, Failed(reason), d.tasks[t].completion, a, AgentFailed))
  {
    ApplyTwo(d, TaskFailure(t, reason), AgentFailure(a), limit);
  }

  lemma CancellationEffect(d: TeamData, t: TaskId, a: AgentId, reason: Text, limit: nat)
    requires t in d.tasks && TaskOwned(d, t) && d.tasks[t].owner == Some(a) && !d.agents[a].status.Terminal()
    requires ValidateReason(reason).Ok?
    ensures ApplyAll(d, [TaskCancellation(t, reason), AgentCancellation(a)], limit)
            == Ok(Move(d, t, Cancelled(reason), d.tasks[t].completion, a, AgentCancelled))
  {
    ApplyTwo(d, TaskCancellation(t, reason), AgentCancellation(a), limit);
  }

  lemma RetryEffect(d: TeamData, t: TaskId, requester: AgentId, a: AgentId, limit: nat)
    requires t in d.tasks && TaskOwned(d, t) && d.tasks[t].owner == Some(a)
    requires requester in d.agents && d.agents[requester].status == Active && d.agents[a].parent == Some(requester)
    requires d.agents[a].status.AgentBlocked? || d.agents[a].status.AgentFailed? || d.agents[a].status.AgentCancelled?
    ensures ApplyAll(d, [TaskRetryRequested(t), AgentRetryRequested(requester, a)], limit)
            == Ok(Move(d, t, Pending, None, a, Dormant))
  {
    ApplyTwo(d, TaskRetryRequested(t), AgentRetryRequested(requester, a), limit);
  }

  lemma OwnTask(d: TeamData, a: AgentId)
    requires Owned(d) && a in d.agents
    ensures d.agents[a].task in d.tasks && d.tasks[d.agents[a].task].owner == Some(a) && TaskOwned(d, d.agents[a].task)
  {
    assert AgentOwns(d, a);
  }

  ghost predicate Accepted(d: TeamData, events: seq<EventKind>, limit: nat) {
    ApplyAll(d, events, limit).Ok? && Sound(ApplyAll(d, events, limit).value, limit)
  }

  lemma AcceptMove(d: TeamData, limit: nat, t: TaskId, status: TaskStatus, completion: Option<Capsule>, a: AgentId,
                   agentStatus: AgentStatus, events: seq<EventKind>)
    requires Sound(d, limit) && MoveAllowed(d, limit, t, status, completion, a, agentStatus)
    requires ApplyAll(d, events, limit) == Ok(Move(d, t, status, completion, a, agentStatus))
    ensures Accepted(d, events, limit)
  {
    hide Sound, MoveAllowed, ApplyAll;
    MoveKeepsSound(d, limit, t, status, completion, a, agentStatus);
  }

  /** What soundness says about one agent and its task. */
  lemma AgentFacts(d: TeamData, limit: nat, a: AgentId)
    requires Sound(d, limit) && a in d.agents
    ensures var t := d.agents[a].task;
            && t in d.tasks && d.tasks[t].owner == Some(a) && TaskOwned(d, t)
            && (d.tasks[t].completion.Some? <==> d.tasks[t].status.Succeeded?)
            && (NeedsDependencies(d.tasks[t].status) ==> DependenciesHold(d.tasks, d.tasks[t].spec.dependencies))
    ensures !d.agents[a].status.Terminal() && d.agents[a].parent.Some? ==>
              d.agents[a].parent.value in d.agents && d.agents[a].parent.value != a
              && d.agents[d.agents[a].parent.value].status == Active
  {
    hide Shape, Numbered;
    OwnTask(d, a);
  }

  lemma CompletionAccepted(t: Team, agent: AgentId, capsule: Capsule)
    requires Sound(t.data, t.limit) && PlanCompletion(t, agent, capsule).Ok?
    ensures Accepted(t.data, PlanCompletion(t, agent, capsule).value, t.limit)
  {
    hide Sound, ValidateCapsule, HasLiveChild, DependenciesHold, Accepted;
    var d := t.data;
    AgentFacts(d, t.limit, agent);
    var task := d.agents[agent].task;
    CompletionEffect(d, task, agent, capsule, t.limit);
    AcceptMove(d, t.limit, task, Succeeded, Some(capsule), agent, AgentSucceeded, PlanCompletion(t, agent, capsule).value);
  }

  lemma FailureAccepted(t: Team, agent: AgentId, reason: Text)
    requires Sound(t.data, t.limit) && PlanFailure(t, agent, reason).Ok?
    ensures Accepted(t.data, PlanFailure(t, agent, reason).value, t.limit)
  {
    hide Sound, ValidateReason, HasLiveChild, DependenciesHold, Accepted;
    var d := t.data;
    AgentFacts(d, t.limit, agent);
    var task := d.agents[agent].task;
    FailureEffect(d, task, agent, reason, t.limit);
    AcceptMove(d, t.limit, task, Failed(reason), d.tasks[task].completion, agent, AgentFailed, PlanFailure(t, agent, reason).value);
  }

  lemma CancellationAccepted(t: Team, agent: AgentId, reason: Text)
    requires Sound(t.data, t.limit) && PlanCancellation(t, agent, reason).Ok?
    ensures Accepted(t.data, PlanCancellation(t, agent, reason).value, t.limit)
  {
    hide Sound, ValidateReason, HasLiveChild, DependenciesHold, Accepted;
    var d := t.data;
    AgentFacts(d, t.limit, agent);
    var task := d.agents[agent].task;
    CancellationEffect(d, task, agent, reason, t.limit);
    AcceptMove(d, t.limit, task, Cancelled(reason), d.tasks[task].completion, agent, AgentCancelled,
               PlanCancellation(t, agent, reason).value);
  }

  lemma RetryAccepted(t: Team, requester: AgentId, agent: AgentId)
    requires Sound(t.data, t.limit) && PlanRetry(t, requester, agent).Ok?
    ensures Accepted(t.data, PlanRetry(t, requester, agent).value, t.limit)
  {
    hide Sound, HasLiveChild, DependenciesHold, Accepted, FirstFailedDependency;
    var d := t.data;
    AgentFacts(d, t.limit, agent);
    var task := d.agents[agent].task;
    RetryEffect(d, task, requester, agent, t.limit);
    ParentDiffers(d, t.limit, agent);
    AcceptMove(d, t.limit, task, Pending, None, agent, Dormant, PlanRetry(t, requester, agent).value);
  }

  lemma ParentDiffers(d: TeamData, limit: nat, a: AgentId)
    requires Sound(d, limit) && a in d.agents
    ensures d.agents[a].parent != Some(a)
  {
    assert TreeNode(d, a);
  }
}
