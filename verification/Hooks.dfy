/** Ordered, short-circuiting hook execution (hooks/hooks.go). */
module Hooks {
  import opened Types

  datatype HookInput = HookInput(event: string, toolName: string, input: Input, output: string, error: Option<Error>)

  datatype HookOutput = HookOutput(decision: string, reason: string, suppressOutput: bool, updated: Input)

  /** A legacy hook blocks by returning a message. */
  datatype LegacyReply = LegacyReply(message: string, err: Option<Error>)

  datatype ExReply = ExReply(output: Option<HookOutput>, err: Option<Error>)

  datatype HookRule = HookRule(matches: string -> bool,
                               hooks: seq<(string, Input) -> LegacyReply>,
                               hooksEx: seq<HookInput -> ExReply>)

  /** What running the hooks of one event yields: an error, or a result. */
  datatype HookRun =
    | Failed(err: Error)
    | Ran(blocked: bool, message: string, output: Option<HookOutput>, progress: nat)

  // ---------------------------------------------------------------------------
  // Reference: one flat list of replies, read up to the first that stops
  // ---------------------------------------------------------------------------

  datatype Step = Legacy(reply: LegacyReply) | Ex(exReply: ExReply)

  predicate Errs(s: Step) {
    match s
    case Legacy(r) => r.err.Some?
    case Ex(r) => r.err.Some?
  }

  predicate Blocks(s: Step) {
    match s
    case Legacy(r) => r.err.None? && r.message != ""
    case Ex(r) => r.err.None? && r.output.Some? && r.output.value.decision == "block"
  }

  function ErrorOf(s: Step): Error
    requires Errs(s)
  {
    match s
    case Legacy(r) => r.err.value
    case Ex(r) => r.err.value
  }

  function MessageOf(s: Step): string
    requires Blocks(s)
  {
    match s
    case Legacy(r) => r.message
    case Ex(r) => r.output.value.reason
  }

  predicate Applies(rule: HookRule, toolName: string) {
    toolName == "" || rule.matches(toolName)
  }

  function RuleSteps(rule: HookRule, i: HookInput): seq<Step> {
    seq(|rule.hooks|, k requires 0 <= k < |rule.hooks| => Legacy(rule.hooks[k](i.toolName, i.input)))
    + seq(|rule.hooksEx|, k requires 0 <= k < |rule.hooksEx| => Ex(rule.hooksEx[k](i)))
  }

  /** What every configured hook would answer, in firing order. */
  function AllSteps(rules: seq<HookRule>, i: HookInput): seq<Step> {
    if rules == [] then []
    else AllSteps(rules[..|rules| - 1], i)
         + if Applies(rules[|rules| - 1], i.toolName) then RuleSteps(rules[|rules| - 1], i) else []
  }

  ghost predicate Passes(steps: seq<Step>) {
    forall k :: 0 <= k < |steps| ==> !Errs(steps[k]) && !Blocks(steps[k])
  }

  /** The most recent rich output. Earlier ones are forgotten. */
  function LastOutput(steps: seq<Step>): Option<HookOutput> {
    if steps == [] then None
    else
      var last := steps[|steps| - 1];
      if last.Ex? && last.exReply.output.Some? then last.exReply.output else LastOutput(steps[..|steps| - 1])
  }

  function FirstStop(steps: seq<Step>): nat {
    if steps == [] then 0
    else if Errs(steps[0]) || Blocks(steps[0]) then 0
    else 1 + FirstStop(steps[1..])
  }

  lemma {:induction false} FirstStopIs(steps: seq<Step>, n: nat)
    requires n <= |steps| && Passes(steps[..n])
    requires n < |steps| ==> Errs(steps[n]) || Blocks(steps[n])
    ensures FirstStop(steps) == n
  {
    if n > 0 {
      var rest := steps[1..];
      assert !Errs(steps[..n][0]) && !Blocks(steps[..n][0]);
      var head := rest[..n - 1];
      forall k | 0 <= k < |head| ensures !Errs(head[k]) && !Blocks(head[k]) {
        assert head[k] == steps[..n][k + 1];
      }
      FirstStopIs(rest, n - 1);
    }
  }

  /** The reference result of a list of replies. */
  function Summary(steps: seq<Step>): HookRun {
    var n := FirstStop(steps);
    if n >= |steps| then Ran(false, "", LastOutput(steps), |steps|)
    else if Errs(steps[n]) then Failed(ErrorOf(steps[n]))
    else if Blocks(steps[n]) then Ran(true, MessageOf(steps[n]), LastOutput(steps[..n + 1]), n + 1)
    else Ran(false, "", LastOutput(steps), |steps|)
  }

  /** Running the hooks of an event, as a value. */
  function Run(rules: seq<HookRule>, i: HookInput): HookRun {
    Summary(AllSteps(rules, i))
  }

  // ---------------------------------------------------------------------------
  // The nested loops
  // ---------------------------------------------------------------------------

  lemma PassesPush(steps: seq<Step>, s: Step)
    requires Passes(steps) && !Errs(s) && !Blocks(s)
    ensures Passes(steps + [s])
  {
  }

  lemma LastOutputPush(steps: seq<Step>, s: Step)
    ensures LastOutput(steps + [s])
         == if s.Ex? && s.exReply.output.Some? then s.exReply.output else LastOutput(steps)
  {
    assert (steps + [s])[..|steps|] == steps;
  }

  /** Once a step stops, the answers of the hooks after it do not matter. */
  lemma Stopped(seen: seq<Step>, s: Step, unseen: seq<Step>)
    requires Passes(seen) && (Errs(s) || Blocks(s))
    ensures Summary(seen + [s] + unseen)
         == if Errs(s) then Failed(ErrorOf(s)) else Ran(true, MessageOf(s), LastOutput(seen + [s]), |seen| + 1)
  {
    var all := seen + [s] + unseen;
    assert all[..|seen|] == seen && all[|seen|] == s;
    FirstStopIs(all, |seen|);
    assert all[..|seen| + 1] == seen + [s];
  }

  lemma NeverStopped(steps: seq<Step>)
    requires Passes(steps)
    ensures Summary(steps) == Ran(false, "", LastOutput(steps), |steps|)
  {
    assert steps[..|steps|] == steps;
    FirstStopIs(steps, |steps|);
  }

  lemma {:induction false} StepsSplit(rules: seq<HookRule>, n: nat, i: HookInput) returns (rest: seq<Step>)
    requires n < |rules|
    ensures AllSteps(rules, i) == AllSteps(rules[..n + 1], i) + rest
    decreases |rules|
  {
    if n + 1 == |rules| {
      assert rules[..n + 1] == rules;
      rest := [];
    } else {
      var before := rules[..|rules| - 1];
      rest := StepsSplit(before, n, i);
      assert before[..n + 1] == rules[..n + 1];
      var last := if Applies(rules[|rules| - 1], i.toolName) then RuleSteps(rules[|rules| - 1], i) else [];
      assert AllSteps(rules, i) == AllSteps(rules[..n + 1], i) + (rest + last);
      rest := rest + last;
    }
  }

  /** One rule: its legacy hooks, then its rich hooks. Stops at the first error or block. */
  method RunRule(rule: HookRule, i: HookInput, ghost seen: seq<Step>, output0: Option<HookOutput>, progress0: nat)
    returns (err: Option<Error>, blocked: bool, message: string, output: Option<HookOutput>, progress: nat)
    requires Passes(seen) && output0 == LastOutput(seen) && progress0 == |seen|
    ensures err.None? && !blocked ==>
              && Passes(seen + RuleSteps(rule, i))
              && output == LastOutput(seen + RuleSteps(rule, i))
              && progress == |seen| + |RuleSteps(rule, i)|
    ensures err.Some? || blocked ==>
              exists ran, s, unseen ::
                && RuleSteps(rule, i) == ran + [s] + unseen && Passes(seen + ran)
                && (if err.Some? then Errs(s) && ErrorOf(s) == err.value
                    else Blocks(s) && !Errs(s) && MessageOf(s) == message
                         && output == LastOutput(seen + ran + [s]) && progress == |seen + ran| + 1)
  {
    hide LastOutput;
    err, blocked, message, output, progress := None, false, "", output0, progress0;
    ghost var steps := RuleSteps(rule, i);
    assert seen + steps[..0] == seen;
    for k := 0 to |rule.hooks|
      invariant err.None? && !blocked
      invariant Passes(seen + steps[..k])
      invariant output == LastOutput(seen + steps[..k]) && progress == |seen| + k
    {
      var reply := rule.hooks[k](i.toolName, i.input);
      assert steps[k] == Legacy(reply);
      assert steps == steps[..k] + [steps[k]] + steps[k + 1..];
      LastOutputPush(seen + steps[..k], steps[k]);
      assert seen + steps[..k] + [steps[k]] == seen + steps[..k + 1];
      if reply.err.Some? {
        err := reply.err;
        return;
      }
      if reply.message != "" {
        blocked, message := true, reply.message;
      }
      progress := progress + 1;
      if blocked {
        return;
      }
      PassesPush(seen + steps[..k], steps[k]);
    }
    ghost var base := |rule.hooks|;
    for k := 0 to |rule.hooksEx|
      invariant err.None? && !blocked
      invariant Passes(seen + steps[..base + k])
      invariant output == LastOutput(seen + steps[..base + k]) && progress == |seen| + base + k
    {
      var reply := rule.hooksEx[k](i);
      ghost var at := base + k;
      assert steps[at] == Ex(reply);
      assert steps == steps[..at] + [steps[at]] + steps[at + 1..];
      LastOutputPush(seen + steps[..at], steps[at]);
      assert seen + steps[..at] + [steps[at]] == seen + steps[..at + 1];
      if reply.err.Some? {
        err := reply.err;
        return;
      }
      if reply.output.Some? {
        output := reply.output;
        if reply.output.value.decision == "block" {
          blocked, message := true, reply.output.value.reason;
        }
      }
      progress := progress + 1;
      if blocked {
        return;
      }
      PassesPush(seen + steps[..at], steps[at]);
    }
    assert steps[..|steps|] == steps;
  }

  /** The loops compute the reference result. */
  method RunHooks(rules: seq<HookRule>, i: HookInput) returns (run: HookRun)
    ensures run == Run(rules, i)
  {
    hide LastOutput, Summary, AllSteps, Passes, Errs, Blocks;
    NoSteps(i);
    assert rules[..0] == [];
    var output: Option<HookOutput> := None;
    var progress := 0;
    for n := 0 to |rules|
      invariant Passes(AllSteps(rules[..n], i))
      invariant output == LastOutput(AllSteps(rules[..n], i)) && progress == |AllSteps(rules[..n], i)|
    {
      var rule := rules[n];
      ghost var seen := AllSteps(rules[..n], i);
      NextSteps(rules, n, i);
      if i.toolName != "" && !rule.matches(i.toolName) {
        continue;
      }
      var err, blocked, message;
      err, blocked, message, output, progress := RunRule(rule, i, seen, output, progress);
      if err.Some? || blocked {
        ghost var ran, s, unseen :| RuleSteps(rule, i) == ran + [s] + unseen && Passes(seen + ran)
                && (if err.Some? then Errs(s) && ErrorOf(s) == err.value
                    else Blocks(s) && !Errs(s) && MessageOf(s) == message
                         && output == LastOutput(seen + ran + [s]) && progress == |seen + ran| + 1);
        ghost var rest := StepsSplit(rules, n, i);
        Stopped(seen + ran, s, unseen + rest);
        assert AllSteps(rules, i) == (seen + ran) + [s] + (unseen + rest);
      }
      if err.Some? {
        return Failed(err.value);
      }
      if blocked {
        return Ran(true, message, output, progress);
      }
    }
    assert rules[..|rules|] == rules;
    NeverStopped(AllSteps(rules, i));
    run := Ran(false, "", output, progress);
  }

  lemma NoSteps(i: HookInput)
    ensures AllSteps([], i) == [] && LastOutput([]) == None && Passes([])
  {
  }

  lemma NextSteps(rules: seq<HookRule>, n: nat, i: HookInput)
    requires n < |rules|
    ensures AllSteps(rules[..n + 1], i)
         == if Applies(rules[n], i.toolName) then AllSteps(rules[..n], i) + RuleSteps(rules[n], i) else AllSteps(rules[..n], i)
  {
    assert rules[..n + 1][..n] == rules[..n];
    assert AllSteps(rules[..n], i) + [] == AllSteps(rules[..n], i);
  }

  // ---------------------------------------------------------------------------
  // What callers may rely on
  // ---------------------------------------------------------------------------

  /** A run is not blocked and not failed exactly when no hook blocked or failed. */
  lemma NotBlockedExactly(rules: seq<HookRule>, i: HookInput)
    ensures (Run(rules, i).Ran? && !Run(rules, i).blocked) <==> Passes(AllSteps(rules, i))
  {
    hide AllSteps;
    SummaryPassesExactly(AllSteps(rules, i));
  }

  lemma SummaryPassesExactly(steps: seq<Step>)
    ensures (Summary(steps).Ran? && !Summary(steps).blocked) <==> Passes(steps)
  {
    hide LastOutput, FirstStop;
    FirstStopBound(steps);
    if Passes(steps) {
      NeverStopped(steps);
    } else {
      assert steps[..|steps|] == steps;
    }
  }

  lemma {:induction false} FirstStopBound(steps: seq<Step>)
    ensures FirstStop(steps) <= |steps|
    ensures Passes(steps[..FirstStop(steps)])
    ensures FirstStop(steps) < |steps| ==> Errs(steps[FirstStop(steps)]) || Blocks(steps[FirstStop(steps)])
  {
    if steps != [] && !Errs(steps[0]) && !Blocks(steps[0]) {
      var rest := steps[1..];
      FirstStopBound(rest);
      var n := FirstStop(rest);
      assert steps[..1 + n] == [steps[0]] + rest[..n];
    }
    assert steps[..|steps|] == steps;
  }

  /** A legacy answer without error and message, or a rich answer without error that does not decide "block". */
  predicate Quiet(s: Step) {
    match s
    case Legacy(r) => r.err.None? && r.message == ""
    case Ex(r) => r.err.None? && !(r.output.Some? && r.output.value.decision == "block")
  }

  /** The first answer that is not quiet decides: an error fails the run, and otherwise the message of a
      legacy hook, or the reason of a rich one, is the message under which the run is blocked. It counts in
      the progress, and its output, if any, is the last. */
  lemma FirstLoudAnswer(rules: seq<HookRule>, i: HookInput, n: nat)
    requires n < |AllSteps(rules, i)| && !Quiet(AllSteps(rules, i)[n])
    requires forall k :: 0 <= k < n ==> Quiet(AllSteps(rules, i)[k])
    ensures match AllSteps(rules, i)[n]
            case Legacy(r) =>
              if r.err.Some? then Run(rules, i) == Failed(r.err.value)
              else
                var run := Run(rules, i);
                run.Ran? && run.blocked && run.message == r.message && run.progress == n + 1
            case Ex(r) =>
              if r.err.Some? then Run(rules, i) == Failed(r.err.value)
              else r.output.Some? && Run(rules, i) == Ran(true, r.output.value.reason, r.output, n + 1)
  {
    hide AllSteps, LastOutput;
    var steps := AllSteps(rules, i);
    assert steps == steps[..n] + [steps[n]] + steps[n + 1..];
    Stopped(steps[..n], steps[n], steps[n + 1..]);
    LastOutputPush(steps[..n], steps[n]);
  }

  /** When all answers are quiet the run is not blocked, has no message, and has counted every answer. */
  lemma AllQuiet(rules: seq<HookRule>, i: HookInput)
    requires forall k :: 0 <= k < |AllSteps(rules, i)| ==> Quiet(AllSteps(rules, i)[k])
    ensures Run(rules, i).Ran? && !Run(rules, i).blocked && Run(rules, i).message == ""
    ensures Run(rules, i).progress == |AllSteps(rules, i)|
  {
    hide AllSteps;
    NeverStopped(AllSteps(rules, i));
  }

  /** The order of the answers: rule by rule, without the rules that do not match the tool, and in each rule
      the legacy hooks before the rich ones, each list in its order. */
  lemma {:induction false} FiringOrder(rules: seq<HookRule>, i: HookInput)
    requires rules != []
    ensures !(i.toolName == "" || rules[0].matches(i.toolName)) ==> AllSteps(rules, i) == AllSteps(rules[1..], i)
    ensures i.toolName == "" || rules[0].matches(i.toolName) ==>
              var rule := rules[0];
              && |AllSteps(rules, i)| == |rule.hooks| + |rule.hooksEx| + |AllSteps(rules[1..], i)|
              && (forall k :: 0 <= k < |rule.hooks| ==> AllSteps(rules, i)[k] == Legacy(rule.hooks[k](i.toolName, i.input)))
              && (forall k :: 0 <= k < |rule.hooksEx| ==> AllSteps(rules, i)[|rule.hooks| + k] == Ex(rule.hooksEx[k](i)))
              && AllSteps(rules, i)[|rule.hooks| + |rule.hooksEx|..] == AllSteps(rules[1..], i)
  {
    HeadSteps(rules, i);
    hide AllSteps;
    var head := if Applies(rules[0], i.toolName) then RuleSteps(rules[0], i) else [];
    assert (head + AllSteps(rules[1..], i))[|head|..] == AllSteps(rules[1..], i);
  }

  lemma {:induction false} HeadSteps(rules: seq<HookRule>, i: HookInput)
    requires rules != []
    ensures AllSteps(rules, i)
         == (if Applies(rules[0], i.toolName) then RuleSteps(rules[0], i) else []) + AllSteps(rules[1..], i)
    decreases |rules|
  {
    hide RuleSteps, Applies;
    var before, last := rules[..|rules| - 1], rules[|rules| - 1];
    var end := if Applies(last, i.toolName) then RuleSteps(last, i) else [];
    if before == [] {
      assert AllSteps(rules, i) == [] + end;
      assert AllSteps(rules[1..], i) == [];
    } else {
      HeadSteps(before, i);
      var rest := rules[1..];
      assert rest[..|rest| - 1] == before[1..] && rest[|rest| - 1] == last;
    }
  }

  /** The rewritten input of an unblocked run, if any hook set one in the last rich output. */
  function Rewritten(run: HookRun): Input {
    if run.Ran? && run.output.Some? then run.output.value.updated else NilInput
  }

  /** A rich answer that carries an output. */
  predicate HasOutput(s: Step) {
    s.Ex? && s.exReply.output.Some?
  }

  predicate Rewrites(s: Step) {
    HasOutput(s) && s.exReply.output.value.updated != NilInput
  }

  lemma {:induction false} LastOutputAt(steps: seq<Step>, n: nat)
    requires n <= |steps| && (n > 0 ==> HasOutput(steps[n - 1]))
    requires forall k :: n <= k < |steps| ==> !HasOutput(steps[k])
    ensures LastOutput(steps) == if n == 0 then None else steps[n - 1].exReply.output
  {
    if n < |steps| {
      assert !HasOutput(steps[|steps| - 1]);
      LastOutputAt(steps[..|steps| - 1], n);
    }
  }

  lemma {:induction false} LastWithOutput(steps: seq<Step>) returns (n: nat)
    ensures n <= |steps| && (n > 0 ==> HasOutput(steps[n - 1]))
    ensures forall k :: n <= k < |steps| ==> !HasOutput(steps[k])
  {
    if steps == [] || HasOutput(steps[|steps| - 1]) {
      n := |steps|;
    } else {
      var before := steps[..|steps| - 1];
      n := LastWithOutput(before);
      forall k | n <= k < |steps| ensures !HasOutput(steps[k]) {
        if k < |before| {
          assert before[k] == steps[k];
        }
      }
    }
  }

  /** When hook r is the last to set a rewritten input: its rewrite is the one that counts if and only if
      no hook after it answers with an output at all. Otherwise there is no rewrite. */
  lemma RewriteSurvivesExactly(rules: seq<HookRule>, i: HookInput, r: nat)
    requires Passes(AllSteps(rules, i)) && r < |AllSteps(rules, i)| && Rewrites(AllSteps(rules, i)[r])
    requires forall k :: r < k < |AllSteps(rules, i)| ==> !Rewrites(AllSteps(rules, i)[k])
    ensures Rewritten(Run(rules, i)) == AllSteps(rules, i)[r].exReply.output.value.updated
       <==> forall k :: r < k < |AllSteps(rules, i)| ==> !HasOutput(AllSteps(rules, i)[k])
    ensures (exists k :: r < k < |AllSteps(rules, i)| && HasOutput(AllSteps(rules, i)[k])) ==> Rewritten(Run(rules, i)) == NilInput
  {
    var steps := AllSteps(rules, i);
    NeverStopped(steps);
    var n := LastWithOutput(steps);
    LastOutputAt(steps, n);
  }

  /** If no hook sets a rewritten input there is none. */
  lemma NoRewriteWithoutHook(rules: seq<HookRule>, i: HookInput)
    requires Passes(AllSteps(rules, i)) && forall k :: 0 <= k < |AllSteps(rules, i)| ==> !Rewrites(AllSteps(rules, i)[k])
    ensures Rewritten(Run(rules, i)) == NilInput
  {
    var steps := AllSteps(rules, i);
    NeverStopped(steps);
    var n := LastWithOutput(steps);
    LastOutputAt(steps, n);
  }

  function Replying(decision: string, updated: Input): HookInput -> ExReply {
    (i: HookInput) => ExReply(Some(HookOutput(decision, "", false, updated)), None)
  }

  /** Two hooks of one rule, the first rewriting the input and the second approving: the rewrite is lost,
      and with the first hook alone it is not. */
  lemma LaterOutputDropsRewrite(i: HookInput, rewrite: Input)
    requires rewrite != NilInput
    ensures var first, second := Replying("", rewrite), Replying("approve", NilInput);
            && Rewritten(Run([HookRule(name => true, [], [first])], i)) == rewrite
            && Rewritten(Run([HookRule(name => true, [], [first, second])], i)) == NilInput
  {
    var first, second := Replying("", rewrite), Replying("approve", NilInput);
    hide Run, Rewritten, AllSteps;
    TwoReplies(HookRule(name => true, [], [first]), i, [Ex(first(i))]);
    RewriteSurvivesExactly([HookRule(name => true, [], [first])], i, 0);
    TwoReplies(HookRule(name => true, [], [first, second]), i, [Ex(first(i)), Ex(second(i))]);
    assert HasOutput(AllSteps([HookRule(name => true, [], [first, second])], i)[1]);
    RewriteSurvivesExactly([HookRule(name => true, [], [first, second])], i, 0);
  }

  lemma TwoReplies(rule: HookRule, i: HookInput, steps: seq<Step>)
    requires Applies(rule, i.toolName) && rule.hooks == [] && |rule.hooksEx| == |steps|
    requires forall k :: 0 <= k < |steps| ==> steps[k] == Ex(rule.hooksEx[k](i))
    ensures AllSteps([rule], i) == steps
  {
    OneRule(rule, i);
    assert RuleSteps(rule, i) == steps;
  }

  lemma OneRule(rule: HookRule, i: HookInput)
    requires Applies(rule, i.toolName)
    ensures AllSteps([rule], i) == RuleSteps(rule, i)
  {
    assert [rule][..0] == [];
    assert [] + RuleSteps(rule, i) == RuleSteps(rule, i);
  }
}
