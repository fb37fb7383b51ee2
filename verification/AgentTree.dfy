/** The two accounting paths of a tree of agents that run concurrently: every interleaving of ledger
    charges, tracker updates, spawns and merges (agent/loop.go, agent/agent.go spawnSubagentWithTracker). */
module AgentTree {
  import opened Types
  import opened Accounting

  datatype Phase = Running | Merging | Merged

  /** table and total are the session tracker of the agent; while it is merged into its parent, table holds
      what is still to be added. pending is usage that is in the ledger and not yet in the tracker. */
  datatype Agent = Agent(parent: Option<nat>, table: map<string, Usage>, total: real,
                         pending: Option<(string, Usage)>, phase: Phase)

  datatype State = State(ledger: map<string, Usage>, ledgerCost: real, agents: map<nat, Agent>)

  const Root: nat := 0

  datatype Step =
    | ChargeLedger(id: nat, model: string, u: Usage)
    | ChargeTracker(id: nat)
    | Spawn(id: nat, child: nat)
    | Return(id: nat)
    | MergeOne(id: nat, model: string)
    | MergeDone(id: nat)

  ghost predicate ChildrenMerged(s: State, id: nat) {
    forall c :: c in s.agents && s.agents[c].parent == Some(id) ==> s.agents[c].phase == Merged
  }

  ghost predicate Enabled(s: State, step: Step) {
    step.id in s.agents &&
    var a := s.agents[step.id];
    match step
    case ChargeLedger(_, _, _) => a.phase == Running && a.pending.None?
    case ChargeTracker(_) => a.pending.Some?
    case Spawn(_, c) => a.phase == Running && a.pending.None? && c !in s.agents
    case Return(id) => a.phase == Running && a.pending.None? && a.parent.Some? && ChildrenMerged(s, id)
    case MergeOne(_, m) => a.phase == Merging && m in a.table && a.parent.Some? && a.parent.value in s.agents
    case MergeDone(_) => a.phase == Merging && a.table == map[]
  }

  /** A tracker update: the table entry and the total. */
  function Credit(a: Agent, model: string, u: Usage): Agent {
    a.(table := AddTo(a.table, model, u), total := a.total + CalculateCost(model, u))
  }

  ghost function Apply(s: State, step: Step): State
    requires Enabled(s, step)
  {
    var a := s.agents[step.id];
    match step
    case ChargeLedger(id, m, u) =>
      s.(ledger := AddTo(s.ledger, m, u), ledgerCost := s.ledgerCost + CalculateCost(m, u),
         agents := s.agents[id := a.(pending := Some((m, u)))])
    case ChargeTracker(id) =>
      s.(agents := s.agents[id := Credit(a, a.pending.value.0, a.pending.value.1).(pending := None)])
    case Spawn(id, c) => s.(agents := s.agents[c := Agent(Some(id), map[], 0.0, None, Running)])
    case Return(id) => s.(agents := s.agents[id := a.(phase := Merging)])
    case MergeOne(id, m) =>
      var p := a.parent.value;
      var drained := s.agents[id := a.(table := a.table - {m})];
      s.(agents := drained[p := Credit(drained[p], m, a.table[m])])
    case MergeDone(id) => s.(agents := s.agents[id := a.(phase := Merged)])
  }

  /** A run of the root session starts with a new ledger. The session's tracker holds what its earlier
      runs left in it. */
  ghost predicate Initial(base: map<string, Usage>, s: State) {
    && s.ledger == map[] && s.ledgerCost == 0.0
    && s.agents == map[Root := Agent(None, base, TotalCost(base), None, Running)]
  }

  ghost predicate Next(s: State, t: State) {
    exists step :: Enabled(s, step) && t == Apply(s, step)
  }

  ghost predicate Execution(base: map<string, Usage>, run: seq<State>) {
    && |run| > 0 && Initial(base, run[0])
    && forall k :: 0 <= k < |run| - 1 ==> Next(run[k], run[k + 1])
  }

  // ---------------------------------------------------------------------------
  // What is outstanding, agent by agent
  // ---------------------------------------------------------------------------

  function PendingTokens(a: Agent, model: string): Usage {
    if a.pending.Some? && a.pending.value.0 == model then a.pending.value.1 else Zero
  }

  function PendingCost(a: Agent): real {
    if a.pending.Some? then CalculateCost(a.pending.value.0, a.pending.value.1) else 0.0
  }

  function TokensHeld(a: Agent, model: string): Usage {
    Plus(At(a.table, model), PendingTokens(a, model))
  }

  ghost function CostHeld(a: Agent): real {
    TotalCost(a.table) + PendingCost(a)
  }

  ghost function SumTokens(agents: map<nat, Agent>, model: string): Usage {
    if agents == map[] then Zero
    else
      var id :| id in agents;
      Plus(TokensHeld(agents[id], model), SumTokens(agents - {id}, model))
  }

  ghost function SumCost(agents: map<nat, Agent>): real {
    if agents == map[] then 0.0
    else
      var id :| id in agents;
      CostHeld(agents[id]) + SumCost(agents - {id})
  }

  lemma {:induction false} SumTokensSplit(agents: map<nat, Agent>, id: nat, model: string)
    requires id in agents
    ensures SumTokens(agents, model) == Plus(TokensHeld(agents[id], model), SumTokens(agents - {id}, model))
    decreases |agents|
  {
    var c :| c in agents && SumTokens(agents, model) == Plus(TokensHeld(agents[c], model), SumTokens(agents - {c}, model));
    if c != id {
      SumTokensSplit(agents - {c}, id, model);
      SumTokensSplit(agents - {id}, c, model);
      var rest := agents - {id} - {c};
      assert agents - {c} - {id} == rest;
      PlusSwap(TokensHeld(agents[c], model), TokensHeld(agents[id], model), SumTokens(rest, model));
    }
  }

  lemma {:induction false} SumCostSplit(agents: map<nat, Agent>, id: nat)
    requires id in agents
    ensures SumCost(agents) == CostHeld(agents[id]) + SumCost(agents - {id})
    decreases |agents|
  {
    hide CostHeld;
    var c :| c in agents && SumCost(agents) == CostHeld(agents[c]) + SumCost(agents - {c});
    if c != id {
      SumCostSplit(agents - {c}, id);
      SumCostSplit(agents - {id}, c);
      assert agents - {c} - {id} == agents - {id} - {c};
    }
  }

  function Minus(a: Usage, b: Usage): Usage {
    Usage(a.input - b.input, a.output - b.output, a.cacheRead - b.cacheRead, a.cacheCreation - b.cacheCreation)
  }

  /** Changing one agent changes the sums by the change of that agent. */
  lemma SumsUpdate(agents: map<nat, Agent>, id: nat, a: Agent)
    requires id in agents
    ensures forall model :: SumTokens(agents[id := a], model)
                         == Plus(SumTokens(agents, model), Minus(TokensHeld(a, model), TokensHeld(agents[id], model)))
    ensures SumCost(agents[id := a]) == SumCost(agents) + CostHeld(a) - CostHeld(agents[id])
  {
    hide CostHeld, TokensHeld;
    var new_ := agents[id := a];
    assert new_ - {id} == agents - {id};
    SumCostSplit(agents, id);
    SumCostSplit(new_, id);
    forall model
      ensures SumTokens(new_, model)
           == Plus(SumTokens(agents, model), Minus(TokensHeld(a, model), TokensHeld(agents[id], model)))
    {
      SumTokensSplit(agents, id, model);
      SumTokensSplit(new_, id, model);
    }
  }

  ghost predicate Empty(agents: map<nat, Agent>) {
    forall id :: id in agents ==> agents[id].table == map[] && agents[id].pending.None?
  }

  lemma {:induction false} NothingHeldCost(agents: map<nat, Agent>)
    requires Empty(agents)
    ensures SumCost(agents) == 0.0
    decreases |agents|
  {
    hide CalculateCost, TotalCost;
    if agents != map[] {
      var id :| id in agents;
      NothingHeldCost(agents - {id});
      NoCost();
      SumCostSplit(agents, id);
    }
  }

  lemma {:induction false} NothingHeldTokens(agents: map<nat, Agent>, model: string)
    requires Empty(agents)
    ensures SumTokens(agents, model) == Zero
    decreases |agents|
  {
    hide SumTokens, TokensHeld, Plus;
    NothingCounts(model);
    if agents != map[] {
      var id :| id in agents;
      var fewer := agents - {id};
      NothingHeldTokens(fewer, model);
      SumTokensSplit(agents, id, model);
      HoldsNone(agents[id], model);
      NothingCounts(model);
    }
  }

  /** Empty tables and no agents count for nothing. */
  lemma NothingCounts(model: string)
    ensures At(map[], model) == Zero && SumTokens(map[], model) == Zero && Plus(Zero, Zero) == Zero
  {
  }

  lemma NoCost()
    ensures TotalCost(map[]) == 0.0
  {
  }

  lemma HoldsNone(a: Agent, model: string)
    requires a.table == map[] && a.pending.None?
    ensures TokensHeld(a, model) == Zero
  {
  }

  // ---------------------------------------------------------------------------
  // The invariant
  // ---------------------------------------------------------------------------

  /** Nothing charged to the ledger is lost, and nothing is counted twice, at any moment. */
  ghost predicate Conserved(base: map<string, Usage>, s: State) {
    && (forall model :: Plus(At(base, model), At(s.ledger, model)) == SumTokens(s.agents, model))
    && TotalCost(base) + s.ledgerCost == SumCost(s.agents)
  }

  ghost predicate Tidy(s: State) {
    && Root in s.agents && s.agents[Root].parent.None?
    && (forall id :: id in s.agents ==> (s.agents[id].parent.None? <==> id == Root))
    && (forall id :: id in s.agents && s.agents[id].parent.Some? ==>
          s.agents[id].parent.value in s.agents && s.agents[id].parent.value != id)
    && (forall id :: id in s.agents && s.agents[id].phase != Merged && s.agents[id].parent.Some? ==>
          s.agents[s.agents[id].parent.value].phase == Running)
    && (forall id :: id in s.agents && s.agents[id].phase == Merged ==> s.agents[id].table == map[])
    && (forall id :: id in s.agents && s.agents[id].phase != Running ==> s.agents[id].pending.None?)
    && s.agents[Root].phase == Running
  }

  ghost predicate Totals(s: State) {
    forall id :: id in s.agents && s.agents[id].phase == Running ==> s.agents[id].total == TotalCost(s.agents[id].table)
  }

  lemma InitialInv(base: map<string, Usage>, s: State)
    requires Initial(base, s)
    ensures Conserved(base, s) && Tidy(s) && Totals(s)
  {
    hide CalculateCost, TotalCost, SumTokens, SumCost, At, TokensHeld, Plus;
    InitialCost(base, s);
    forall model ensures Plus(At(base, model), At(s.ledger, model)) == SumTokens(s.agents, model) {
      InitialTokens(base, s, model);
    }
  }

  lemma InitialCost(base: map<string, Usage>, s: State)
    requires Initial(base, s)
    ensures SumCost(s.agents) == TotalCost(base)
  {
    hide CalculateCost, TotalCost, SumCost;
    var others := s.agents - {Root};
    assert others == map[];
    NothingHeldCost(others);
    SumCostSplit(s.agents, Root);
  }

  lemma InitialTokens(base: map<string, Usage>, s: State, model: string)
    requires Initial(base, s)
    ensures Plus(At(base, model), At(s.ledger, model)) == SumTokens(s.agents, model)
  {
    hide SumTokens, TokensHeld;
    var others := s.agents - {Root};
    assert others == map[];
    NothingHeldTokens(others, model);
    SumTokensSplit(s.agents, Root, model);
    RootHolds(s.agents[Root], model);
    NothingCounts(model);
  }

  lemma KeepsTidy(s: State, step: Step)
    requires Enabled(s, step) && Tidy(s)
    ensures Tidy(Apply(s, step))
  {
    hide CalculateCost, AddTo, TotalCost, Plus, At;
    if step.MergeOne? {
      MergeKeepsTidy(s, step);
    }
  }

  lemma MergeKeepsTidy(s: State, step: Step)
    requires Enabled(s, step) && Tidy(s) && step.MergeOne?
    ensures Tidy(Apply(s, step))
  {
    hide CalculateCost, AddTo, TotalCost, Plus, At, ChildrenMerged;
  }

  lemma KeepsTotals(s: State, step: Step)
    requires Enabled(s, step) && Tidy(s) && Totals(s)
    ensures Totals(Apply(s, step))
  {
    hide CalculateCost, AddTo, TotalCost;
    match step {
      case ChargeTracker(id) =>
        var a := s.agents[id];
        TotalAdd(a.table, a.pending.value.0, a.pending.value.1);
      case MergeOne(id, m) =>
        var p := s.agents[id].parent.value;
        TotalAdd(s.agents[p].table, m, s.agents[id].table[m]);
      case Spawn(_, _) => NoCost();
      case _ =>
    }
  }

  lemma ConservedCharge(base: map<string, Usage>, s: State, step: Step)
    requires Enabled(s, step) && Conserved(base, s) && step.ChargeLedger?
    ensures Conserved(base, Apply(s, step))
  {
    hide CalculateCost, AddTo, At, TotalCost, SumTokens, SumCost, TokensHeld, CostHeld, ChildrenMerged, Plus, Minus;
    var a := s.agents[step.id];
    var m, u := step.model, step.u;
    var b := a.(pending := Some((m, u)));
    SumsUpdate(s.agents, step.id, b);
    TotalAdd(s.ledger, m, u);
    HeldPending(a, m, u);
    var t := Apply(s, step);
    forall model ensures Plus(At(base, model), At(t.ledger, model)) == SumTokens(t.agents, model) {
      var gain := Minus(TokensHeld(b, model), TokensHeld(a, model));
      assert SumTokens(t.agents, model) == Plus(SumTokens(s.agents, model), gain);
      assert At(t.ledger, model) == if model == m then Plus(At(s.ledger, model), u) else At(s.ledger, model);
      AddBoth(At(base, model), At(s.ledger, model), gain);
    }
  }

  lemma AddBoth(a: Usage, b: Usage, c: Usage)
    ensures Plus(a, Plus(b, c)) == Plus(Plus(a, b), c) && Plus(a, Zero) == a && Plus(b, Zero) == b
    ensures Plus(Plus(a, b), Zero) == Plus(a, b)
  {
  }

  lemma ConservedTracker(base: map<string, Usage>, s: State, step: Step)
    requires Enabled(s, step) && Conserved(base, s) && step.ChargeTracker?
    ensures Conserved(base, Apply(s, step))
  {
    hide CalculateCost, AddTo, At, TotalCost, SumTokens, SumCost, TokensHeld, CostHeld, ChildrenMerged;
    var a := s.agents[step.id];
    SumsUpdate(s.agents, step.id, Credit(a, a.pending.value.0, a.pending.value.1).(pending := None));
    HeldSettled(a);
  }

  lemma ConservedSpawn(base: map<string, Usage>, s: State, step: Step)
    requires Enabled(s, step) && Conserved(base, s) && step.Spawn?
    ensures Conserved(base, Apply(s, step))
  {
    hide CalculateCost, AddTo, At, TotalCost, SumTokens, SumCost, TokensHeld, CostHeld, ChildrenMerged;
    var a := s.agents[step.id];
    NewAgent(s.agents, step.child, step.id);
    var t := Apply(s, step);
    forall model ensures Plus(At(base, model), At(t.ledger, model)) == SumTokens(t.agents, model) {
      NewAgentTokens(s.agents, step.child, step.id, model);
    }
  }

  lemma ConservedPhase(base: map<string, Usage>, s: State, step: Step)
    requires Enabled(s, step) && Conserved(base, s) && (step.Return? || step.MergeDone?)
    ensures Conserved(base, Apply(s, step))
  {
    hide CalculateCost, AddTo, At, TotalCost, SumTokens, SumCost, TokensHeld, CostHeld, ChildrenMerged;
    var phase := if step.Return? then Merging else Merged;
    SumsUpdate(s.agents, step.id, s.agents[step.id].(phase := phase));
    HeldPhase(s.agents[step.id], phase);
  }

  lemma ConservedMerge(base: map<string, Usage>, s: State, step: Step)
    requires Enabled(s, step) && Tidy(s) && Conserved(base, s) && step.MergeOne?
    ensures Conserved(base, Apply(s, step))
  {
    hide CalculateCost, AddTo, At, TotalCost, SumTokens, SumCost, TokensHeld, CostHeld, ChildrenMerged;
    var a := s.agents[step.id];
    var p, m := a.parent.value, step.model;
    var less := a.(table := a.table - {m});
    var drained := s.agents[step.id := less];
    SumsUpdate(s.agents, step.id, less);
    SumsUpdate(drained, p, Credit(drained[p], m, a.table[m]));
    HeldDrained(a, m);
    HeldCredited(drained[p], m, a.table[m]);
    var t := Apply(s, step);
    assert t.agents == drained[p := Credit(drained[p], m, a.table[m])];
    forall model ensures Plus(At(base, model), At(t.ledger, model)) == SumTokens(t.agents, model) {
      assert SumTokens(drained, model) == Plus(SumTokens(s.agents, model), Minus(TokensHeld(less, model), TokensHeld(a, model)));
    }
  }

  lemma KeepsConserved(base: map<string, Usage>, s: State, step: Step)
    requires Enabled(s, step) && Tidy(s) && Conserved(base, s)
    ensures Conserved(base, Apply(s, step))
  {
    hide Enabled, Apply, Tidy, Conserved;
    match step {
      case ChargeLedger(_, _, _) => ConservedCharge(base, s, step);
      case ChargeTracker(_) => ConservedTracker(base, s, step);
      case Spawn(_, _) => ConservedSpawn(base, s, step);
      case Return(_) => ConservedPhase(base, s, step);
      case MergeOne(_, _) => ConservedMerge(base, s, step);
      case MergeDone(_) => ConservedPhase(base, s, step);
    }
  }

  lemma HeldPending(a: Agent, m: string, u: Usage)
    requires a.pending.None?
    ensures var b := a.(pending := Some((m, u)));
            && CostHeld(b) == CostHeld(a) + CalculateCost(m, u)
            && forall model :: Minus(TokensHeld(b, model), TokensHeld(a, model)) == if model == m then u else Zero
  {
    hide CalculateCost, TotalCost, At;
  }

  lemma HeldSettled(a: Agent)
    requires a.pending.Some?
    ensures var b := Credit(a, a.pending.value.0, a.pending.value.1).(pending := None);
            && CostHeld(b) == CostHeld(a)
            && forall model :: TokensHeld(b, model) == TokensHeld(a, model)
  {
    hide CalculateCost, TotalCost, AddTo, At;
    TotalAdd(a.table, a.pending.value.0, a.pending.value.1);
  }

  lemma HeldPhase(a: Agent, phase: Phase)
    ensures CostHeld(a.(phase := phase)) == CostHeld(a)
    ensures forall model :: TokensHeld(a.(phase := phase), model) == TokensHeld(a, model)
  {
  }

  lemma HeldDrained(a: Agent, m: string)
    requires m in a.table
    ensures var b := a.(table := a.table - {m});
            && CostHeld(b) == CostHeld(a) - CalculateCost(m, a.table[m])
            && forall model :: Minus(TokensHeld(b, model), TokensHeld(a, model))
                            == if model == m then Minus(Zero, a.table[m]) else Zero
  {
    hide CalculateCost;
    TotalSplit(a.table, m);
  }

  lemma HeldCredited(a: Agent, m: string, u: Usage)
    ensures var b := Credit(a, m, u);
            && CostHeld(b) == CostHeld(a) + CalculateCost(m, u)
            && forall model :: Minus(TokensHeld(b, model), TokensHeld(a, model)) == if model == m then u else Zero
  {
    hide CalculateCost, TotalCost, AddTo, At;
    TotalAdd(a.table, m, u);
  }

  lemma NewAgent(agents: map<nat, Agent>, c: nat, parent: nat)
    requires c !in agents
    ensures SumCost(agents[c := Agent(Some(parent), map[], 0.0, None, Running)]) == SumCost(agents)
  {
    hide CalculateCost, SumCost, TotalCost;
    var more := agents[c := Agent(Some(parent), map[], 0.0, None, Running)];
    assert more - {c} == agents;
    NoCost();
    SumCostSplit(more, c);
  }

  lemma NewAgentTokens(agents: map<nat, Agent>, c: nat, parent: nat, model: string)
    requires c !in agents
    ensures SumTokens(agents[c := Agent(Some(parent), map[], 0.0, None, Running)], model) == SumTokens(agents, model)
  {
    hide SumTokens, TokensHeld;
    var more := agents[c := Agent(Some(parent), map[], 0.0, None, Running)];
    assert more - {c} == agents;
    HoldsNone(more[c], model);
    SumTokensSplit(more, c, model);
  }

  lemma {:induction false} Reachable(base: map<string, Usage>, run: seq<State>, n: nat)
    requires Execution(base, run) && n < |run|
    ensures Conserved(base, run[n]) && Tidy(run[n]) && Totals(run[n])
  {
    hide Conserved, Tidy, Totals, Enabled, Apply;
    if n == 0 {
      InitialInv(base, run[0]);
    } else {
      Reachable(base, run, n - 1);
      assert Next(run[n - 1], run[n - 1 + 1]);
      var step :| Enabled(run[n - 1], step) && run[n] == Apply(run[n - 1], step);
      KeepsTidy(run[n - 1], step);
      KeepsTotals(run[n - 1], step);
      KeepsConserved(base, run[n - 1], step);
    }
  }

  // ---------------------------------------------------------------------------
  // Main result
  // ---------------------------------------------------------------------------

  /** The root agent is back and every subagent has been merged. */
  ghost predicate Settled(s: State) {
    && Root in s.agents && s.agents[Root].pending.None?
    && forall id :: id in s.agents && id != Root ==> s.agents[id].phase == Merged
  }

  /** For every interleaving of a tree of agents of any shape, and whatever the session did before: once
      the run has settled, the root session's tracker has grown by what the ledger holds, for each model in
      all token counts, and in cost. */
  lemma TrackerEqualsLedger(base: map<string, Usage>, run: seq<State>, n: nat)
    requires Execution(base, run) && n < |run| && Settled(run[n])
    ensures forall model :: At(run[n].agents[Root].table, model) == Plus(At(base, model), At(run[n].ledger, model))
    ensures run[n].agents[Root].total == TotalCost(base) + run[n].ledgerCost
  {
    hide CalculateCost, TotalCost, SumTokens, SumCost, TokensHeld, At;
    Reachable(base, run, n);
    var s := run[n];
    var others := s.agents - {Root};
    NothingHeldCost(others);
    SumCostSplit(s.agents, Root);
    forall model ensures At(s.agents[Root].table, model) == Plus(At(base, model), At(s.ledger, model)) {
      NothingHeldTokens(others, model);
      SumTokensSplit(s.agents, Root, model);
      RootHolds(s.agents[Root], model);
    }
  }

  lemma RootHolds(a: Agent, model: string)
    requires a.pending.None?
    ensures TokensHeld(a, model) == At(a.table, model)
  {
  }
}
