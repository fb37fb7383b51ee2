/** Usage and cost accounting (costtracker/ledger.go, costtracker/tracker.go), and the two paths along
    which a tree of subagents charges it (agent/loop.go, agent/agent.go spawnSubagentWithTracker).
    Costs are reals: rounding is not modelled. */
module Accounting {

  datatype Usage = Usage(input: int, output: int, cacheRead: int, cacheCreation: int)

  const Zero := Usage(0, 0, 0, 0)

  function Plus(a: Usage, b: Usage): Usage {
    Usage(a.input + b.input, a.output + b.output, a.cacheRead + b.cacheRead, a.cacheCreation + b.cacheCreation)
  }

  // ---------------------------------------------------------------------------
  // Prices
  // ---------------------------------------------------------------------------

  /** Prices per million tokens. */
  datatype Price = Price(input: real, output: real, cacheRead: real, cacheWrite: real)

  const ModelPricing: map<string, Price> := map[
    "sonnet-4-6" := Price(3.0, 15.0, 0.3, 3.75),
    "opus-4-6" := Price(15.0, 75.0, 1.5, 18.75),
    "haiku-4-5" := Price(0.8, 4.0, 0.08, 1.0),
    "sonnet-4-5" := Price(3.0, 15.0, 0.3, 3.75)
  ]

  function PriceOf(model: string): Price {
    if model in ModelPricing then ModelPricing[model] else ModelPricing["sonnet-4-6"]
  }

  function CalculateCost(model: string, u: Usage): real {
    var p := PriceOf(model);
    u.input as real * p.input / 1000000.0
    + u.output as real * p.output / 1000000.0
    + u.cacheRead as real * p.cacheRead / 1000000.0
    + u.cacheCreation as real * p.cacheWrite / 1000000.0
  }

  lemma Distribute(a: int, b: int, p: real)
    ensures (a + b) as real * p / 1000000.0 == a as real * p / 1000000.0 + b as real * p / 1000000.0
  {
    assert (a + b) as real == a as real + b as real;
    assert (a + b) as real * p == a as real * p + b as real * p;
  }

  /** The cost of usage taken together is the cost of its parts. */
  lemma CostIsLinear(model: string, a: Usage, b: Usage)
    ensures CalculateCost(model, Plus(a, b)) == CalculateCost(model, a) + CalculateCost(model, b)
    ensures CalculateCost(model, Zero) == 0.0
  {
    var p := PriceOf(model);
    Distribute(a.input, b.input, p.input);
    Distribute(a.output, b.output, p.output);
    Distribute(a.cacheRead, b.cacheRead, p.cacheRead);
    Distribute(a.cacheCreation, b.cacheCreation, p.cacheWrite);
  }

  /** Prices in cents for a million tokens: input, output, tokens read from the cache, tokens written to it. */
  datatype Cents = Cents(input: int, output: int, cacheRead: int, cacheCreation: int)

  function ListedCents(model: string): Cents {
    match model
    case "opus-4-6" => Cents(1500, 7500, 150, 1875)
    case "haiku-4-5" => Cents(80, 400, 8, 100)
    case _ => Cents(300, 1500, 30, 375)
  }

  /** What usage costs, in whole millionths of a cent. Every model that is not opus-4-6 or haiku-4-5, listed
      or not, costs what sonnet-4-6 costs. */
  lemma CostInCents(model: string, u: Usage)
    ensures var c := ListedCents(model);
            CalculateCost(model, u) * 100000000.0
              == (u.input * c.input + u.output * c.output + u.cacheRead * c.cacheRead + u.cacheCreation * c.cacheCreation) as real
  {
    var i, o, r, w := u.input as real, u.output as real, u.cacheRead as real, u.cacheCreation as real;
    if model == "opus-4-6" {
      assert CalculateCost(model, u) * 100000000.0 == i * 1500.0 + o * 7500.0 + r * 150.0 + w * 1875.0;
    } else if model == "haiku-4-5" {
      assert CalculateCost(model, u) * 100000000.0 == i * 80.0 + o * 400.0 + r * 8.0 + w * 100.0;
    } else {
      assert PriceOf(model) == Price(3.0, 15.0, 0.3, 3.75);
      assert CalculateCost(model, u) * 100000000.0 == i * 300.0 + o * 1500.0 + r * 30.0 + w * 375.0;
    }
  }

  // ---------------------------------------------------------------------------
  // Sums over per-model tables
  // ---------------------------------------------------------------------------

  function At(m: map<string, Usage>, model: string): Usage {
    if model in m then m[model] else Zero
  }

  function AddTo(m: map<string, Usage>, model: string, u: Usage): map<string, Usage> {
    m[model := Plus(At(m, model), u)]
  }

  ghost function Total(m: map<string, Usage>): Usage {
    if m == map[] then Zero
    else
      var k :| k in m;
      Plus(m[k], Total(m - {k}))
  }

  ghost function TotalCost(m: map<string, Usage>): real {
    if m == map[] then 0.0
    else
      var k :| k in m;
      CalculateCost(k, m[k]) + TotalCost(m - {k})
  }

  /** The choice of the first model does not matter. */
  lemma {:induction false} TotalSplit(m: map<string, Usage>, k: string)
    requires k in m
    ensures Total(m) == Plus(m[k], Total(m - {k}))
    ensures TotalCost(m) == CalculateCost(k, m[k]) + TotalCost(m - {k})
    decreases |m|
  {
    TotalSplitUsage(m, k);
    TotalSplitCost(m, k);
  }

  lemma PlusSwap(a: Usage, b: Usage, c: Usage)
    ensures Plus(a, Plus(b, c)) == Plus(b, Plus(a, c))
  {
  }

  lemma {:induction false} TotalSplitUsage(m: map<string, Usage>, k: string)
    requires k in m
    ensures Total(m) == Plus(m[k], Total(m - {k}))
    decreases |m|
  {
    var c :| c in m && Total(m) == Plus(m[c], Total(m - {c}));
    if c != k {
      TotalSplitUsage(m - {c}, k);
      TotalSplitUsage(m - {k}, c);
      var rest := m - {k} - {c};
      assert m - {c} - {k} == rest;
      PlusSwap(m[c], m[k], Total(rest));
    }
  }

  lemma {:induction false} TotalSplitCost(m: map<string, Usage>, k: string)
    requires k in m
    ensures TotalCost(m) == CalculateCost(k, m[k]) + TotalCost(m - {k})
    decreases |m|
  {
    hide CalculateCost;
    var c :| c in m && TotalCost(m) == CalculateCost(c, m[c]) + TotalCost(m - {c});
    if c != k {
      TotalSplitCost(m - {c}, k);
      TotalSplitCost(m - {k}, c);
      assert m - {c} - {k} == m - {k} - {c};
    }
  }

  lemma TotalAdd(m: map<string, Usage>, model: string, u: Usage)
    ensures Total(AddTo(m, model, u)) == Plus(Total(m), u)
    ensures TotalCost(AddTo(m, model, u)) == TotalCost(m) + CalculateCost(model, u)
    ensures forall x :: At(AddTo(m, model, u), x) == if x == model then Plus(At(m, x), u) else At(m, x)
  {
    hide CalculateCost;
    var n := AddTo(m, model, u);
    CostIsLinear(model, At(m, model), u);
    TotalSplit(n, model);
    assert n - {model} == m - {model};
    if model in m {
      TotalSplit(m, model);
    } else {
      assert m - {model} == m;
    }
  }

  // ---------------------------------------------------------------------------
  // The run ledger
  // ---------------------------------------------------------------------------

  class Ledger {
    var cost: real
    var usage: Usage
    var modelUsage: map<string, Usage>

    /** The overall usage is the sum of the per-model usage. */
    ghost predicate Valid()
      reads this
    {
      usage == Total(modelUsage)
    }

    constructor ()
      ensures Valid() && cost == 0.0 && modelUsage == map[]
    {
      cost, usage, modelUsage := 0.0, Zero, map[];
    }

    method Add(model: string, u: Usage, charge: real)
      requires Valid()
      modifies this
      ensures Valid()
      ensures cost == old(cost) + charge && modelUsage == AddTo(old(modelUsage), model, u)
    {
      hide Total, TotalCost, CalculateCost;
      TotalAdd(modelUsage, model, u);
      cost := cost + charge;
      usage := Plus(usage, u);
      var forModel := if model in modelUsage then modelUsage[model] else Zero;
      forModel := Plus(forModel, u);
      modelUsage := modelUsage[model := forModel];
    }

    /** A copy, entry by entry. */
    method Snapshot() returns (total: real, all: Usage, perModel: map<string, Usage>)
      requires Valid()
      ensures total == cost && perModel == modelUsage && all == Total(perModel)
    {
      perModel := map[];
      var rest := modelUsage.Keys;
      while rest != {}
        invariant rest <= modelUsage.Keys
        invariant perModel.Keys == modelUsage.Keys - rest
        invariant forall k :: k in perModel ==> perModel[k] == modelUsage[k]
      {
        var k :| k in rest;
        perModel := perModel[k := modelUsage[k]];
        rest := rest - {k};
      }
      assert perModel.Keys == modelUsage.Keys;
      total, all := cost, usage;
    }
  }

  // ---------------------------------------------------------------------------
  // The session tracker
  // ---------------------------------------------------------------------------

  datatype Entry = Entry(tokens: Usage, costUSD: real)

  function Tokens(entries: map<string, Entry>): map<string, Usage> {
    map k | k in entries :: entries[k].tokens
  }

  class Tracker {
    var totalCostUSD: real
    var modelUsage: map<string, Entry>

    /** Every entry costs what its tokens cost, and the total is the sum over the models. */
    ghost predicate Valid()
      reads this
    {
      && (forall k :: k in modelUsage ==> modelUsage[k].costUSD == CalculateCost(k, modelUsage[k].tokens))
      && totalCostUSD == TotalCost(Tokens(modelUsage))
    }

    constructor ()
      ensures Valid() && totalCostUSD == 0.0 && modelUsage == map[]
    {
      totalCostUSD, modelUsage := 0.0, map[];
    }

    method AddUsage(model: string, u: Usage) returns (total: real)
      requires Valid()
      modifies this
      ensures Valid()
      ensures totalCostUSD == old(totalCostUSD) + CalculateCost(model, u) == total
      ensures Tokens(modelUsage) == AddTo(old(Tokens(modelUsage)), model, u)
    {
      hide CalculateCost;
      var charge := CalculateCost(model, u);
      ghost var before := Tokens(modelUsage);
      TotalAdd(before, model, u);
      totalCostUSD := totalCostUSD + charge;
      var entry := Entry(Zero, 0.0);
      if model in modelUsage {
        entry := modelUsage[model];
      }
      CostIsLinear(model, entry.tokens, u);
      entry := Entry(Plus(entry.tokens, u), entry.costUSD + charge);
      modelUsage := modelUsage[model := entry];
      assert Tokens(modelUsage) == AddTo(before, model, u);
      total := totalCostUSD;
    }

    method AllModelUsage() returns (all: map<string, Entry>)
      ensures all == modelUsage
    {
      all := map[];
      var rest := modelUsage.Keys;
      while rest != {}
        invariant rest <= modelUsage.Keys
        invariant all.Keys == modelUsage.Keys - rest
        invariant forall k :: k in all ==> all[k] == modelUsage[k]
      {
        var k :| k in rest;
        all := all[k := modelUsage[k]];
        rest := rest - {k};
      }
      assert all.Keys == modelUsage.Keys;
    }
  }

  // ---------------------------------------------------------------------------
  // A run and its tree of subagents
  // ---------------------------------------------------------------------------

  /** What one agent did: completed model calls with their usage, and subagents. A failed or cancelled
      agent is one that did less; what it did until then still counts. */
  datatype Action = Charge(model: string, u: Usage) | Subagent(child: Node)
  datatype Node = Node(actions: seq<Action>)

  ghost function SumOf(actions: seq<Action>, model: string): Usage
    decreases actions, 0
  {
    if actions == [] then Zero
    else Plus(SumOf(actions[..|actions| - 1], model), Of(actions[|actions| - 1], model))
  }

  ghost function Of(a: Action, model: string): Usage
    decreases a, 1
  {
    match a
    case Charge(m, u) => if m == model then u else Zero
    case Subagent(child) => SumOf(child.actions, model)
  }

  ghost function CostOf(actions: seq<Action>): real
    decreases actions, 0
  {
    if actions == [] then 0.0
    else CostOf(actions[..|actions| - 1]) + CostOfOne(actions[|actions| - 1])
  }

  ghost function CostOfOne(a: Action): real
    decreases a, 1
  {
    match a
    case Charge(m, u) => CalculateCost(m, u)
    case Subagent(child) => CostOf(child.actions)
  }

  /** table has grown by exactly the usage of the actions. */
  ghost predicate Grew(before: map<string, Usage>, after: map<string, Usage>, actions: seq<Action>) {
    forall model :: At(after, model) == Plus(At(before, model), SumOf(actions, model))
  }

  lemma GrewNothing(m: map<string, Usage>)
    ensures Grew(m, m, [])
  {
  }

  lemma GrewStep(before: map<string, Usage>, mid: map<string, Usage>, after: map<string, Usage>,
                 actions: seq<Action>, k: nat)
    requires k < |actions| && Grew(before, mid, actions[..k])
    requires GrewBy(mid, after, actions[k])
    ensures Grew(before, after, actions[..k + 1])
  {
    assert actions[..k + 1][..k] == actions[..k];
  }

  /** table has grown by exactly the usage of one action. */
  ghost predicate GrewBy(before: map<string, Usage>, after: map<string, Usage>, a: Action) {
    forall model :: At(after, model) == Plus(At(before, model), Of(a, model))
  }

  /** One agent's run: charges go to the shared ledger and to the agent's own tracker, and a finished
      subagent's tracker is merged into the tracker of the session that spawned it. */
  method Execute(node: Node, ledger: Ledger, tracker: Tracker)
    requires ledger.Valid() && tracker.Valid()
    modifies ledger, tracker
    ensures ledger.Valid() && tracker.Valid()
    ensures Grew(old(ledger.modelUsage), ledger.modelUsage, node.actions)
    ensures Grew(old(Tokens(tracker.modelUsage)), Tokens(tracker.modelUsage), node.actions)
    ensures ledger.cost == old(ledger.cost) + CostOf(node.actions)
    ensures tracker.totalCostUSD == old(tracker.totalCostUSD) + CostOf(node.actions)
    decreases node
  {
    hide CalculateCost, Grew, GrewBy, Total, TotalCost, AddTo, Of, SumOf;
    var actions := node.actions;
    ghost var ledger0, tracker0 := ledger.modelUsage, Tokens(tracker.modelUsage);
    assert actions[..0] == [];
    GrewNothing(ledger0);
    GrewNothing(tracker0);
    for k := 0 to |actions|
      invariant ledger.Valid() && tracker.Valid()
      invariant Grew(ledger0, ledger.modelUsage, actions[..k])
      invariant Grew(tracker0, Tokens(tracker.modelUsage), actions[..k])
      invariant ledger.cost == old(ledger.cost) + CostOf(actions[..k])
      invariant tracker.totalCostUSD == old(tracker.totalCostUSD) + CostOf(actions[..k])
    {
      assert actions[..k + 1][..k] == actions[..k];
      ghost var ledger1, tracker1 := ledger.modelUsage, Tokens(tracker.modelUsage);
      Perform(actions[k], ledger, tracker);
      GrewStep(ledger0, ledger1, ledger.modelUsage, actions, k);
      GrewStep(tracker0, tracker1, Tokens(tracker.modelUsage), actions, k);
    }
    assert actions[..|actions|] == actions;
  }

  method Perform(action: Action, ledger: Ledger, tracker: Tracker)
    requires ledger.Valid() && tracker.Valid()
    modifies ledger, tracker
    ensures ledger.Valid() && tracker.Valid()
    ensures GrewBy(old(ledger.modelUsage), ledger.modelUsage, action)
    ensures GrewBy(old(Tokens(tracker.modelUsage)), Tokens(tracker.modelUsage), action)
    ensures ledger.cost == old(ledger.cost) + CostOfOne(action)
    ensures tracker.totalCostUSD == old(tracker.totalCostUSD) + CostOfOne(action)
    decreases action
  {
    hide CalculateCost, Total, TotalCost, AddTo, SumOf, GrewBy, Grew;
    match action {
      case Charge(model, u) =>
        ChargeGrows(ledger.modelUsage, model, u);
        ChargeGrows(Tokens(tracker.modelUsage), model, u);
        ledger.Add(model, u, CalculateCost(model, u));
        var _ := tracker.AddUsage(model, u);
      case Subagent(child) =>
        ghost var ledger0, tracker0 := ledger.modelUsage, Tokens(tracker.modelUsage);
        var childTracker := new Tracker();
        assert Tokens(childTracker.modelUsage) == map[];
        Execute(child, ledger, childTracker);
        ghost var childTokens := Tokens(childTracker.modelUsage);
        SubagentGrows(ledger0, ledger.modelUsage, child);
        MergeChild(childTracker, tracker);
        MergeGrows(tracker0, childTokens, Tokens(tracker.modelUsage), child);
    }
  }

  lemma ChargeGrows(m: map<string, Usage>, model: string, u: Usage)
    ensures GrewBy(m, AddTo(m, model, u), Charge(model, u))
  {
  }

  lemma SubagentGrows(before: map<string, Usage>, after: map<string, Usage>, child: Node)
    requires Grew(before, after, child.actions)
    ensures GrewBy(before, after, Subagent(child))
  {
  }

  lemma MergeGrows(before: map<string, Usage>, childTokens: map<string, Usage>, after: map<string, Usage>, child: Node)
    requires Grew(map[], childTokens, child.actions)
    requires forall model :: At(after, model) == Plus(At(before, model), At(childTokens, model))
    ensures GrewBy(before, after, Subagent(child))
  {
  }

  /** start plus the models of all that are not in rest any more. */
  ghost predicate MergedSoFar(start: map<string, Usage>, now: map<string, Usage>, all: map<string, Usage>, rest: set<string>) {
    forall model :: At(now, model) == if model in rest then At(start, model) else Plus(At(start, model), At(all, model))
  }

  lemma MergeNext(start: map<string, Usage>, now: map<string, Usage>, all: map<string, Usage>, rest: set<string>, model: string)
    requires MergedSoFar(start, now, all, rest) && model in rest && model in all
    ensures MergedSoFar(start, AddTo(now, model, all[model]), all, rest - {model})
  {
  }

  /** The loop that adds a finished child's per-model usage to the parent session's tracker. */
  method MergeChild(child: Tracker, tracker: Tracker)
    requires child.Valid() && tracker.Valid() && child != tracker
    modifies tracker
    ensures tracker.Valid()
    ensures forall model :: At(Tokens(tracker.modelUsage), model)
                         == Plus(old(At(Tokens(tracker.modelUsage), model)), At(Tokens(child.modelUsage), model))
    ensures tracker.totalCostUSD == old(tracker.totalCostUSD) + child.totalCostUSD
  {
    hide CalculateCost, MergedSoFar, AddTo, Total, TotalCost;
    var usages := child.AllModelUsage();
    ghost var start, all := Tokens(tracker.modelUsage), Tokens(usages);
    var rest := usages.Keys;
    ghost var left := all;
    MergeStart(start, all);
    while rest != {}
      invariant tracker.Valid()
      invariant rest <= usages.Keys && left.Keys == rest && forall k :: k in rest ==> left[k] == all[k]
      invariant MergedSoFar(start, Tokens(tracker.modelUsage), all, rest)
      invariant tracker.totalCostUSD + TotalCost(left) == old(tracker.totalCostUSD) + TotalCost(all)
    {
      var model :| model in rest;
      TotalSplitCost(left, model);
      MergeNext(start, Tokens(tracker.modelUsage), all, rest, model);
      var _ := tracker.AddUsage(model, usages[model].tokens);
      rest := rest - {model};
      left := left - {model};
    }
    MergeEnd(start, Tokens(tracker.modelUsage), all, left);
  }

  lemma MergeStart(start: map<string, Usage>, all: map<string, Usage>)
    ensures MergedSoFar(start, start, all, all.Keys)
  {
  }

  lemma MergeEnd(start: map<string, Usage>, now: map<string, Usage>, all: map<string, Usage>, left: map<string, Usage>)
    requires MergedSoFar(start, now, all, {}) && left.Keys == {}
    ensures forall model :: At(now, model) == Plus(At(start, model), At(all, model))
    ensures TotalCost(left) == 0.0
  {
    assert left == map[];
  }

  /** Main result: over one root run, whatever its tree of subagents, the session's tracker grows by
      exactly what the run's ledger holds, model by model and in cost. */
  method RootRun(node: Node, session: Tracker) returns (ledger: Ledger)
    requires session.Valid()
    modifies session
    ensures fresh(ledger) && ledger.Valid() && session.Valid()
    ensures forall model :: At(Tokens(session.modelUsage), model)
                         == Plus(old(At(Tokens(session.modelUsage), model)), At(ledger.modelUsage, model))
    ensures session.totalCostUSD - old(session.totalCostUSD) == ledger.cost
    ensures ledger.cost == CostOf(node.actions)
  {
    ledger := new Ledger();
    Execute(node, ledger, session);
  }
}
