/** Budget admission: a check followed, later, by a charge (agent/run.go checkAdmission, agent/loop.go).
    Any number of agents share one ledger, so between a check and its charge others check and charge too. */
module Budget {
  import opened Types

  // ---------------------------------------------------------------------------
  // The check
  // ---------------------------------------------------------------------------

  /** The two budget options. maxUSD is meant only when it is positive; budget goes first, even at zero. */
  datatype Options = Options(budget: Option<real>, maxBudgetUSD: real)

  function BudgetLimit(o: Options): Option<real> {
    if o.budget.Some? then o.budget
    else if o.maxBudgetUSD > 0.0 then Some(o.maxBudgetUSD)
    else None
  }

  datatype Admission = Admitted | ContextEnded(err: Error) | OverBudget(limit: real)

  function CheckAdmission(o: Options, contextErr: Option<Error>, cost: real): Admission {
    if contextErr.Some? then ContextEnded(contextErr.value)
    else
      var limit := BudgetLimit(o);
      if limit.Some? && cost >= limit.value then OverBudget(limit.value) else Admitted
  }

  /** A configured zero budget admits nothing; the compatibility field at zero means no budget at all. */
  lemma ZeroBudget(maxBudgetUSD: real, cost: real)
    requires cost >= 0.0
    ensures CheckAdmission(Options(Some(0.0), maxBudgetUSD), None, cost) == OverBudget(0.0)
    ensures CheckAdmission(Options(None, 0.0), None, cost) == Admitted
  {
  }

  /** A turn is refused exactly when the context has ended, when a configured budget is used up, or when there
      is none and a positive compatibility budget is. The context goes first, and the refusal names its cause. */
  lemma RefusedExactly(o: Options, contextErr: Option<Error>, cost: real)
    ensures CheckAdmission(o, contextErr, cost) != Admitted <==>
              || contextErr.Some?
              || (o.budget.Some? && cost >= o.budget.value)
              || (o.budget.None? && o.maxBudgetUSD > 0.0 && cost >= o.maxBudgetUSD)
    ensures forall e :: contextErr == Some(e) ==> CheckAdmission(o, contextErr, cost) == ContextEnded(e)
    ensures forall limit :: CheckAdmission(o, contextErr, cost) == OverBudget(limit) ==>
              contextErr.None? && cost >= limit == if o.budget.Some? then o.budget.value else o.maxBudgetUSD
  {
  }

  // ---------------------------------------------------------------------------
  // Interleavings of checks and charges
  // ---------------------------------------------------------------------------

  /** inFlight counts turns that passed the check and have not charged yet. */
  datatype State = State(cost: real, inFlight: nat)

  /** A turn is admitted on the cost read at that moment, ends with a charge, or ends without one. */
  datatype Step = Admit | Charge(amount: real) | EndUncharged

  /** The environment: at most turns turns in flight, each charge at most charge. */
  datatype Setting = Setting(options: Options, turns: nat, charge: real)

  predicate Enabled(e: Setting, s: State, step: Step) {
    match step
    case Admit => s.inFlight < e.turns && CheckAdmission(e.options, None, s.cost).Admitted?
    case Charge(amount) => s.inFlight > 0 && 0.0 <= amount <= e.charge
    case EndUncharged => s.inFlight > 0
  }

  function Apply(s: State, step: Step): State
    requires step.Admit? || s.inFlight > 0
  {
    match step
    case Admit => s.(inFlight := s.inFlight + 1)
    case Charge(amount) => State(s.cost + amount, s.inFlight - 1)
    case EndUncharged => s.(inFlight := s.inFlight - 1)
  }

  /** Runs the steps, or None when one of them is not possible. */
  function Run(e: Setting, s: State, steps: seq<Step>): Option<State>
    decreases |steps|
  {
    if steps == [] then Some(s)
    else if Enabled(e, s, steps[0]) then Run(e, Apply(s, steps[0]), steps[1..])
    else None
  }

  const Fresh := State(0.0, 0)

  function Times(n: nat, c: real): real {
    n as real * c
  }

  lemma OneMore(n: nat, c: real)
    ensures Times(n + 1, c) == Times(n, c) + c
  {
    assert (n + 1) as real == n as real + 1.0;
  }

  lemma {:induction false} TimesMonotone(n: nat, m: nat, c: real)
    requires n <= m && c >= 0.0
    ensures Times(n, c) <= Times(m, c)
    decreases m - n
  {
    if n < m {
      OneMore(n, c);
      TimesMonotone(n + 1, m, c);
    }
  }

  /** What has been spent and what those in flight may still spend stays below the limit plus one round. */
  ghost predicate Covered(e: Setting, limit: real, s: State) {
    s.inFlight <= e.turns && s.cost + Times(s.inFlight, e.charge) < limit + Times(e.turns, e.charge)
  }

  lemma StepCovered(e: Setting, limit: real, s: State, step: Step)
    requires BudgetLimit(e.options) == Some(limit) && e.charge >= 0.0
    requires Enabled(e, s, step) && Covered(e, limit, s)
    ensures Covered(e, limit, Apply(s, step))
  {
    match step {
      case Admit => TimesMonotone(s.inFlight + 1, e.turns, e.charge);
      case Charge(_) => OneMore(s.inFlight - 1, e.charge);
      case EndUncharged => OneMore(s.inFlight - 1, e.charge);
    }
  }

  lemma {:induction false} RunCovered(e: Setting, limit: real, s: State, steps: seq<Step>)
    requires BudgetLimit(e.options) == Some(limit) && e.charge >= 0.0
    requires Covered(e, limit, s) && Run(e, s, steps).Some?
    ensures Covered(e, limit, Run(e, s, steps).value)
    decreases |steps|
  {
    if steps != [] {
      StepCovered(e, limit, s, steps[0]);
      RunCovered(e, limit, Apply(s, steps[0]), steps[1..]);
    }
  }

  /** Main result: in every interleaving the final cost stays below limit + turns * charge. */
  lemma OvershootBound(e: Setting, limit: real, steps: seq<Step>)
    requires BudgetLimit(e.options) == Some(limit) && limit > 0.0 && e.charge >= 0.0
    requires Run(e, Fresh, steps).Some?
    ensures Run(e, Fresh, steps).value.cost < limit + Times(e.turns, e.charge)
  {
    TimesMonotone(0, e.turns, e.charge);
    RunCovered(e, limit, Fresh, steps);
    var s := Run(e, Fresh, steps).value;
    TimesMonotone(0, s.inFlight, e.charge);
  }

  /** The same for the two options as they are given: the budget, and without one the compatibility field. */
  lemma OvershootByOption(e: Setting, steps: seq<Step>)
    requires e.charge >= 0.0 && Run(e, Fresh, steps).Some?
    ensures e.options.budget.Some? && e.options.budget.value > 0.0 ==>
              Run(e, Fresh, steps).value.cost < e.options.budget.value + Times(e.turns, e.charge)
    ensures e.options.budget.None? && e.options.maxBudgetUSD > 0.0 ==>
              Run(e, Fresh, steps).value.cost < e.options.maxBudgetUSD + Times(e.turns, e.charge)
  {
    var limit := BudgetLimit(e.options);
    if limit.Some? && limit.value > 0.0 {
      OvershootBound(e, limit.value, steps);
    }
  }

  /** Once the cost has reached the limit, no later turn is admitted. */
  lemma {:induction false} NoAdmissionAfterLimit(e: Setting, limit: real, s: State, steps: seq<Step>, k: nat)
    requires BudgetLimit(e.options) == Some(limit) && s.cost >= limit
    requires Run(e, s, steps).Some? && k < |steps|
    ensures !steps[k].Admit?
    decreases |steps|
  {
    if k > 0 {
      NoAdmissionAfterLimit(e, limit, Apply(s, steps[0]), steps[1..], k - 1);
    }
  }

  /** A zero budget admits no turn at all. */
  lemma ZeroBudgetRunsNothing(e: Setting, steps: seq<Step>)
    requires e.options.budget == Some(0.0) && Run(e, Fresh, steps).Some?
    ensures steps == []
  {
    if steps != [] {
      NoAdmissionAfterLimit(e, 0.0, Fresh, steps, 0);
    }
  }

  // ---------------------------------------------------------------------------
  // The bound cannot be improved
  // ---------------------------------------------------------------------------

  function Repeat(n: nat, step: Step): seq<Step> {
    if n == 0 then [] else [step] + Repeat(n - 1, step)
  }

  /** n sequential turns that each charge amount. */
  function Climb(n: nat, amount: real): seq<Step> {
    if n == 0 then [] else [Admit, Charge(amount)] + Climb(n - 1, amount)
  }

  lemma {:induction false} RunAppend(e: Setting, s: State, a: seq<Step>, b: seq<Step>)
    requires Run(e, s, a).Some?
    ensures Run(e, s, a + b) == Run(e, Run(e, s, a).value, b)
    decreases |a|
  {
    if a == [] {
      assert a + b == b;
    } else {
      assert (a + b)[1..] == a[1..] + b;
      RunAppend(e, Apply(s, a[0]), a[1..], b);
    }
  }

  lemma {:induction false} Climbs(e: Setting, limit: real, s: State, n: nat, amount: real)
    requires BudgetLimit(e.options) == Some(limit) && 0.0 <= amount <= e.charge && e.turns > 0
    requires s.inFlight == 0 && s.cost + Times(n, amount) < limit
    ensures Run(e, s, Climb(n, amount)) == Some(State(s.cost + Times(n, amount), 0))
    decreases n
  {
    if n > 0 {
      OneMore(n - 1, amount);
      TimesMonotone(0, n - 1, amount);
      var steps := Climb(n, amount);
      var rest := Climb(n - 1, amount);
      assert steps[1..] == [Charge(amount)] + rest;
      assert steps[1..][1..] == rest;
      var mid := Apply(s, Admit);
      assert Run(e, s, steps) == Run(e, mid, steps[1..]);
      assert Run(e, mid, steps[1..]) == Run(e, State(s.cost + amount, 0), rest);
      Climbs(e, limit, State(s.cost + amount, 0), n - 1, amount);
    }
  }

  lemma {:induction false} AllAdmitted(e: Setting, limit: real, s: State, n: nat)
    requires BudgetLimit(e.options) == Some(limit) && s.cost < limit && s.inFlight + n <= e.turns
    ensures Run(e, s, Repeat(n, Admit)) == Some(s.(inFlight := s.inFlight + n))
    decreases n
  {
    if n > 0 {
      assert Repeat(n, Admit)[1..] == Repeat(n - 1, Admit);
      AllAdmitted(e, limit, Apply(s, Admit), n - 1);
    }
  }

  lemma {:induction false} AllCharged(e: Setting, s: State, n: nat)
    requires s.inFlight == n && e.charge >= 0.0
    ensures Run(e, s, Repeat(n, Charge(e.charge))) == Some(State(s.cost + Times(n, e.charge), 0))
    decreases n
  {
    if n > 0 {
      OneMore(n - 1, e.charge);
      assert Repeat(n, Charge(e.charge))[1..] == Repeat(n - 1, Charge(e.charge));
      AllCharged(e, Apply(s, Charge(e.charge)), n - 1);
    }
  }

  lemma Shrink(x: real, y: real, m: real)
    requires x <= y && m > 0.0
    ensures x / m <= y / m
  {
  }

  /** Some whole number of equal steps of at most charge adds up to any target. */
  lemma Divide(target: real, charge: real) returns (n: nat, amount: real)
    requires target >= 0.0 && charge > 0.0
    ensures 0.0 <= amount <= charge && Times(n, amount) == target
  {
    var q := target / charge;
    n := q.Floor as nat + 1;
    var m := n as real;
    assert m > q && m >= 1.0;
    amount := target / m;
    assert target == q * charge;
    assert q * charge <= m * charge;
    assert amount * m == target;
    assert (m * charge) / m == charge;
    Shrink(target, m * charge, m);
  }

  /** For every limit, charge and number of turns, interleavings come as close to the bound as one likes. */
  lemma OvershootIsTight(e: Setting, limit: real, gap: real) returns (steps: seq<Step>)
    requires BudgetLimit(e.options) == Some(limit) && limit > 0.0 && e.charge > 0.0 && e.turns > 0
    requires 0.0 < gap <= limit
    ensures Run(e, Fresh, steps).Some?
    ensures Run(e, Fresh, steps).value.cost == limit + Times(e.turns, e.charge) - gap
  {
    var n, amount := Divide(limit - gap, e.charge);
    Climbs(e, limit, Fresh, n, amount);
    var low := State(limit - gap, 0);
    AllAdmitted(e, limit, low, e.turns);
    var full := State(limit - gap, e.turns);
    AllCharged(e, full, e.turns);
    var a, b, c := Climb(n, amount), Repeat(e.turns, Admit), Repeat(e.turns, Charge(e.charge));
    RunAppend(e, Fresh, a, b + c);
    RunAppend(e, low, b, c);
    steps := a + (b + c);
  }
}
