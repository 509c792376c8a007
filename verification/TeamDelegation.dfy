/**
 Consequences for the delegation tree of every reachable runtime: budget is
 conserved, authority only narrows, live agents hang on an active ancestry.
 */
module TeamDelegation {
  import opened Prelude
  import opened TeamModel
  import opened TeamPlan
  import opened TeamInvariant
  import opened TeamSchedule
  import opened TeamCommands
  import opened TeamGrowth
  import opened TeamDispatch
  import opened TeamRuns

  // ---------- conservation of budget ----------

  /** Whether `a` lies in the subtree below (and including) `top`. */
  ghost predicate Below(agents: map<AgentId, Agent>, a: AgentId, top: AgentId)
    decreases a
  {
    a == top || (a in agents && agents[a].parent.Some? && agents[a].parent.value < a && Below(agents, agents[a].parent.value, top))
  }

  /** What agent `a` still holds itself, counting only children up to `upTo` as paid. */
  ghost function Held(agents: map<AgentId, Agent>, a: AgentId, upTo: nat, axis: Axis): int
    requires a in agents
  {
    axis(agents[a].budget) - ChildSum(agents, a, upTo, axis)
  }

  /** Sum of what the members 1..n of the subtree of `top` hold, with children counted up to `upTo`. */
  ghost function HeldBelow(agents: map<AgentId, Agent>, top: AgentId, n: nat, upTo: nat, axis: Axis): int {
    if n == 0 then 0
    else
      HeldBelow(agents, top, n - 1, upTo, axis)
      + if n in agents && Below(agents, n, top) then Held(agents, n, upTo, axis) else 0
  }

  /** One more child changes the sum exactly by what its parent hands over. */
  lemma {:induction false} HeldBelowPays(agents: map<AgentId, Agent>, top: AgentId, n: nat, child: AgentId, axis: Axis)
    requires child in agents && child >= 1
    ensures HeldBelow(agents, top, n, child, axis)
            == HeldBelow(agents, top, n, child - 1, axis)
               - if agents[child].parent.Some? && 1 <= agents[child].parent.value <= n && agents[child].parent.value in agents
                    && Below(agents, agents[child].parent.value, top)
                 then axis(agents[child].budget) else 0
  {
    if n != 0 {
      HeldBelowPays(agents, top, n - 1, child, axis);
    }
  }

  ghost predicate ParentsEarlier(agents: map<AgentId, Agent>, n: nat) {
    && (forall a: nat | 1 <= a <= n :: a in agents)
    && (forall a | a in agents && agents[a].parent.Some? :: 1 <= agents[a].parent.value < a && agents[a].parent.value in agents)
  }

  lemma {:induction false} NothingBelowYet(agents: map<AgentId, Agent>, top: AgentId, n: nat, upTo: nat, axis: Axis)
    requires n < top
    ensures HeldBelow(agents, top, n, upTo, axis) == 0
  {
    if n != 0 {
      NotBelowEarlier(agents, n, top);
      NothingBelowYet(agents, top, n - 1, upTo, axis);
    }
  }

  lemma {:induction false} NotBelowEarlier(agents: map<AgentId, Agent>, a: AgentId, top: AgentId)
    requires a < top
    ensures !Below(agents, a, top)
    decreases a
  {
    if a in agents && agents[a].parent.Some? && agents[a].parent.value < a {
      NotBelowEarlier(agents, agents[a].parent.value, top);
    }
  }

  /** Agents added one by one: the subtree of `top` always holds exactly the budget of `top`. */
  lemma {:induction false} SubtreeHoldsBudget(agents: map<AgentId, Agent>, top: AgentId, n: AgentId, axis: Axis)
    requires 1 <= top <= n && ParentsEarlier(agents, n) && top in agents
    ensures HeldBelow(agents, top, n, n, axis) == axis(agents[top].budget)
  {
    HeldBelowPays(agents, top, n - 1, n, axis);
    assert ChildSum(agents, n, n, axis) == ChildSum(agents, n, n - 1, axis);
    NoChildYet(agents, n, n, axis);
    if n == top {
      NothingBelowYet(agents, top, n - 1, n - 1, axis);
      if agents[n].parent.Some? {
        NotBelowEarlier(agents, agents[n].parent.value, top);
      }
    } else {
      SubtreeHoldsBudget(agents, top, n - 1, axis);
    }
  }

  /** Unreserved budget of the subtree of `top` among agents 1..n, read from the stored reservations. */
  ghost function FreeBelow(agents: map<AgentId, Agent>, top: AgentId, n: nat, axis: Axis): int {
    if n == 0 then 0
    else
      FreeBelow(agents, top, n - 1, axis)
      + if n in agents && Below(agents, n, top) then axis(agents[n].budget) - axis(agents[n].reserved) else 0
  }

  lemma {:induction false} FreeIsHeld(agents: map<AgentId, Agent>, top: AgentId, n: nat, upTo: nat, axis: Axis)
    requires forall a | a in agents :: axis(agents[a].reserved) == ChildSum(agents, a, upTo, axis)
    ensures FreeBelow(agents, top, n, axis) == HeldBelow(agents, top, n, upTo, axis)
  {
    if n != 0 {
      FreeIsHeld(agents, top, n - 1, upTo, axis);
    }
  }

  lemma SoundTree(d: TeamData, limit: nat)
    requires Sound(d, limit)
    ensures |d.agents| < U64_MAX && ParentsEarlier(d.agents, |d.agents|) && MaxId(d.agents.Keys) == |d.agents|
    ensures forall a | a in d.agents :: 1 <= a <= |d.agents| && BudgetsBalanced(d.agents, a)
    ensures Tree(d)
  {
    hide BudgetsBalanced, DependenciesEarlier, DependencySafe, LiveChain, CompletionMatches, Owned;
    assert forall a | a in d.agents :: a in d.agents.Keys;
    assert forall a: nat | 1 <= a <= |d.agents| :: a in d.agents.Keys;
    ContiguousMax(d.agents.Keys, |d.agents|);
    forall a | a in d.agents
      ensures BudgetsBalanced(d.agents, a)
    {
      assert AgentSound(d.agents, a);
    }
    forall a | a in d.agents && d.agents[a].parent.Some?
      ensures 1 <= d.agents[a].parent.value < a && d.agents[a].parent.value in d.agents
    {
      assert TreeNode(d, a);
    }
  }

  /** Conservation, for every subtree and both axes: whatever delegation has happened below an
      agent, the budget still unreserved in its subtree adds up to the budget it was given. */
  lemma DelegationConserves(limit: nat, authority: nat, requests: seq<Request>, top: AgentId)
    requires top in Run(NewTeam(limit, authority), requests).data.agents
    ensures var agents := Run(NewTeam(limit, authority), requests).data.agents;
            && FreeBelow(agents, top, |agents|, TOKENS) == agents[top].budget.tokens
            && FreeBelow(agents, top, |agents|, CALLS) == agents[top].budget.calls
  {
    hide Live, Run, MaxId;
    var t := Run(NewTeam(limit, authority), requests);
    NewTeamLive(limit, authority);
    RunStaysLive(NewTeam(limit, authority), requests);
    assert Sound(t.data, t.limit) by {
      LiveSound(t);
    }
    hide Sound;
    SoundTree(t.data, t.limit);
    hide Tree;
    var n := |t.data.agents|;
    SubtreeHoldsBudget(t.data.agents, top, n, TOKENS);
    SubtreeHoldsBudget(t.data.agents, top, n, CALLS);
    FreeIsHeld(t.data.agents, top, n, n, TOKENS);
    FreeIsHeld(t.data.agents, top, n, n, CALLS);
  }

  lemma LiveSound(t: Team)
    requires Live(t)
    ensures Sound(t.data, t.limit)
  {
  }

  /** The whole team is the root's subtree. */
  lemma {:induction false} EveryoneBelowRoot(d: TeamData, a: AgentId)
    requires Tree(d) && a in d.agents
    ensures d.root.Some? && Below(d.agents, a, d.root.value)
    decreases a
  {
    assert TreeNode(d, a);
    if d.agents[a].parent.Some? {
      EveryoneBelowRoot(d, d.agents[a].parent.value);
    }
  }

  // ---------- narrowing authority ----------

  /** Along every parent chain capabilities and scope only shrink. */
  lemma {:induction false} AuthorityNarrows(d: TeamData, a: AgentId, top: AgentId)
    requires Tree(d) && a in d.agents && top in d.agents && Below(d.agents, a, top)
    ensures Narrower(d, a, top)
    decreases a
  {
    assert TreeNode(d, a) && TreeNode(d, top);
    if a != top {
      AuthorityNarrows(d, d.agents[a].parent.value, top);
    }
  }

  // ---------- the live chain ----------

  /** Number of strict ancestors, following earlier parents. */
  ghost function Depth(agents: map<AgentId, Agent>, a: AgentId): nat
    decreases a
  {
    if a in agents && agents[a].parent.Some? && agents[a].parent.value < a then 1 + Depth(agents, agents[a].parent.value) else 0
  }

  /** Strict ancestors of an agent. */
  ghost function Ancestors(agents: map<AgentId, Agent>, a: AgentId): set<AgentId>
    decreases a
  {
    if a in agents && agents[a].parent.Some? && agents[a].parent.value < a then
      {agents[a].parent.value} + Ancestors(agents, agents[a].parent.value)
    else {}
  }

  lemma {:induction false} AncestorsCount(agents: map<AgentId, Agent>, a: AgentId)
    ensures |Ancestors(agents, a)| == Depth(agents, a) && forall x | x in Ancestors(agents, a) :: x < a
    decreases a
  {
    if a in agents && agents[a].parent.Some? && agents[a].parent.value < a {
      var p := agents[a].parent.value;
      AncestorsCount(agents, p);
      assert p !in Ancestors(agents, p);
    }
  }

  lemma {:induction false} AncestorsOfLive(d: TeamData, a: AgentId)
    requires Tree(d) && LiveChain(d.agents) && a in d.agents && !d.agents[a].status.Terminal()
    ensures Ancestors(d.agents, a) <= ActiveAgents(d.agents)
    ensures d.root.Some? && (a == d.root.value || d.root.value in Ancestors(d.agents, a))
    decreases a
  {
    assert TreeNode(d, a);
    if d.agents[a].parent.Some? {
      AncestorsOfLive(d, d.agents[a].parent.value);
    }
  }

  lemma LiveChainBoundedIn(d: TeamData, limit: nat, a: AgentId)
    requires Sound(d, limit) && a in d.agents && !d.agents[a].status.Terminal()
    ensures Ancestors(d.agents, a) <= ActiveAgents(d.agents)
    ensures d.root.Some? && d.root.value in d.agents && (a == d.root.value || d.agents[d.root.value].status == Active)
    ensures Depth(d.agents, a) <= limit && (d.agents[a].status == Active ==> Depth(d.agents, a) < limit)
  {
    hide Numbered, DependenciesEarlier, DependencySafe, Owned, AgentSound, CompletionMatches, LiveChain;
    AncestorsOfLive(d, a);
    AncestorsCount(d.agents, a);
    hide Ancestors;
    SubsetSize(Ancestors(d.agents, a), ActiveAgents(d.agents));
    if d.agents[a].status == Active {
      var chain := Ancestors(d.agents, a) + {a};
      SubsetSize(chain, ActiveAgents(d.agents));
      assert |chain| == |Ancestors(d.agents, a)| + 1;
    }
  }

  /** In every reachable runtime each strict ancestor of an unfinished agent is Active; so while
      anyone is unfinished the root is running (or is that agent), no unfinished agent is deeper
      than the Active limit, and one exactly at the limit is not itself running. */
  lemma LiveChainBounded(limit: nat, authority: nat, requests: seq<Request>, a: AgentId)
    requires a in Run(NewTeam(limit, authority), requests).data.agents
    requires !Run(NewTeam(limit, authority), requests).data.agents[a].status.Terminal()
    ensures var d := Run(NewTeam(limit, authority), requests).data;
            && (forall x | x in Ancestors(d.agents, a) :: x in d.agents && d.agents[x].status == Active)
            && d.root.Some? && d.root.value in d.agents && (a == d.root.value || d.agents[d.root.value].status == Active)
            && Depth(d.agents, a) <= limit
            && (d.agents[a].status == Active ==> Depth(d.agents, a) < limit)
  {
    hide Live, Run, Sound, Ancestors, Depth;
    var t := Run(NewTeam(limit, authority), requests);
    NewTeamLive(limit, authority);
    RunStaysLive(NewTeam(limit, authority), requests);
    LiveSound(t);
    LiveChainBoundedIn(t.data, limit, a);
  }

  // ---------- what delegation and dependencies mean for a whole run ----------

  /** In every reachable runtime each started task has all its dependencies succeeded, and authority
      along any chain of delegation has only narrowed. */
  lemma RunIsSafe(limit: nat, authority: nat, requests: seq<Request>)
    ensures var d := Run(NewTeam(limit, authority), requests).data;
            && DependencySafe(d.tasks) && Tree(d)
            && forall a, top | a in d.agents && top in d.agents && Below(d.agents, a, top) :: Narrower(d, a, top)
  {
    hide Live, Run;
    var t := Run(NewTeam(limit, authority), requests);
    NewTeamLive(limit, authority);
    RunStaysLive(NewTeam(limit, authority), requests);
    LiveSound(t);
    SoundShape(t.data, limit);
    SoundDependencies(t.data, limit);
    hide Sound, DependencySafe, Numbered, DependenciesEarlier;
    forall a, top | a in t.data.agents && top in t.data.agents && Below(t.data.agents, a, top)
      ensures Narrower(t.data, a, top)
    {
      AuthorityNarrows(t.data, a, top);
    }
  }

  lemma SoundDependencies(d: TeamData, limit: nat)
    requires Sound(d, limit)
    ensures DependencySafe(d.tasks)
  {
  }

  /** Success is permanent: no request ever moves a succeeded task, whatever is retried or cancelled around it. */
  lemma PerformKeepsSuccess(t: Team, request: Request)
    requires Live(t) && Perform(t, request).Ok?
    ensures SuccessKept(t.data.tasks, Perform(t, request).value.data.tasks)
  {
    var base := BaseEvents(t, request).value;
    assert BaseEvents(t, request).Ok? by {
      hide PrepareEvents;
    }
    LiveSound(t);
    SoundShape(t.data, t.limit);
    SoundDependencies(t.data, t.limit);
    hide Sound, Quiescent, Shape, DependencySafe, Perform, BaseEvents, Fits, Live, SuccessKept;
    PerformDecided(t, request);
    BaseAccepted(t, request);
    OutcomeSettled(t, base);
    hide Accepted, Reconcile;
    EventsKeepSafety(t.data, Outcome(t, request).value.events, t.limit);
  }

  lemma {:induction false} RunKeepsSuccess(t: Team, requests: seq<Request>)
    requires Live(t)
    ensures SuccessKept(t.data.tasks, Run(t, requests).data.tasks)
    decreases |requests|
  {
    hide Live, Perform;
    if requests != [] {
      match Perform(t, requests[0])
      case Ok(next) =>
        PerformKeepsLive(t, requests[0]);
        PerformKeepsSuccess(t, requests[0]);
        RunKeepsSuccess(next, requests[1..]);
      case Err(_) => RunKeepsSuccess(t, requests[1..]);
    }
  }
}
