/** One mediated tool call (tools/executor.go runSingle, agent/agent.go permissionPolicy). */
module ToolCall {
  import opened Types
  import opened Permissions
  import opened Hooks

  datatype Request = Request(id: string, name: string, input: Input)

  datatype Content = TextContent(text: string) | OtherContent(tag: int)

  datatype ToolResult = ToolResult(content: seq<Content>, isError: bool, error: string)

  datatype Denial = Denial(tool: string, reason: string)

  /** A result may be nil in the source's type; callers dereference it, so it must not be. */
  datatype Response = Response(id: string, name: string, result: Option<ToolResult>, err: Option<Error>, denial: Option<Denial>)

  datatype Returned = Returned(result: Option<ToolResult>, err: Option<Error>)

  datatype HookSet = HookSet(pre: seq<HookRule>, post: seq<HookRule>, postFailure: seq<HookRule>)

  /** Everything one call meets: the two readings of the context, the registry, the policies, the hooks, the tool. */
  datatype Env = Env(cancelledFirst: Option<Error>, cancelledLast: Option<Error>,
                     registry: map<string, Tool>,
                     canUse: Option<PermissionFn>, recheck: Option<PermissionFn>,
                     hooks: Option<HookSet>, call: Input -> Returned)

  function FailureResponse(call: Request, err: Error): Response {
    Response(call.id, call.name, Some(ToolResult([TextContent("Error: " + err)], true, err)), Some(err), None)
  }

  function TextOf(content: seq<Content>): string {
    if content == [] then ""
    else TextOf(content[..|content| - 1])
         + if content[|content| - 1].TextContent? then content[|content| - 1].text else ""
  }

  method ToolResultText(result: ToolResult) returns (text: string)
    ensures text == if TextOf(result.content) == "" then result.error else TextOf(result.content)
  {
    text := "";
    for k := 0 to |result.content|
      invariant text == TextOf(result.content[..k])
    {
      assert result.content[..k + 1][..k] == result.content[..k];
      if result.content[k].TextContent? {
        text := text + result.content[k].text;
      }
    }
    assert result.content[..|result.content|] == result.content;
    if text == "" {
      text := result.error;
    }
  }

  function FailureResult(err: Error): ToolResult {
    ToolResult([TextContent("Error: " + err)], true, err)
  }

  /** What a call comes to before the hooks that follow it. */
  function Raw(returned: Returned): ToolResult {
    if returned.err.Some? then FailureResult(returned.err.value)
    else if returned.result.None? then FailureResult("tool returned no result")
    else returned.result.value
  }

  function Shown(result: ToolResult): string {
    if TextOf(result.content) == "" then result.error else TextOf(result.content)
  }

  /** The hooks after a call: those for failures when it failed, the others when it did not. */
  function PostRun(h: HookSet, call: Request, returned: Returned): HookRun {
    var raw := Raw(returned);
    if raw.isError then
      var cause := if returned.err.Some? then returned.err.value else raw.error;
      Run(h.postFailure, HookInput("PostToolUseFailure", call.name, call.input, Shown(raw), Some(cause)))
    else
      Run(h.post, HookInput("PostToolUse", call.name, call.input, Shown(raw), None))
  }

  predicate Stops(run: HookRun) {
    run.Failed? || run.blocked
  }

  function StopReason(run: HookRun, otherwise: string): Error
    requires Stops(run)
  {
    if run.Failed? then run.err else if run.message != "" then run.message else otherwise
  }

  predicate Suppresses(run: HookRun) {
    run.Ran? && run.output.Some? && run.output.value.suppressOutput
  }

  /** How a call that was made is answered. The hooks after it may hide its content or replace the whole
      result by a failure. They never turn a failure into a success. */
  predicate Completed(hooks: Option<HookSet>, call: Request, returned: Returned, response: Response) {
    && Answers(call, response) && response.denial.None?
    && var raw := Raw(returned);
    && (response.result.value.isError <==> raw.isError || (hooks.Some? && Stops(PostRun(hooks.value, call, returned))))
    && if hooks.None? then response.result.value == raw && response.err.None?
       else
         var run := PostRun(hooks.value, call, returned);
         if Stops(run) then response == FailureResponse(call, StopReason(run, "Blocked by post-tool hook"))
         else response.err.None? && response.result.value == raw.(content := if Suppresses(run) then [] else raw.content)
  }

  /** A response answers a request: same id, same name, and a result that is there. */
  predicate Answers(call: Request, r: Response) {
    r.id == call.id && r.name == call.name && r.result.Some?
  }

  // ---------------------------------------------------------------------------
  // What must have happened before the tool is called with x
  // ---------------------------------------------------------------------------

  function PreInput(call: Request, mid: Input): HookInput {
    HookInput("PreToolUse", call.name, mid, "", None)
  }

  /** The policy let the call through and left the input mid in force. */
  ghost predicate PolicyPasses(canUse: Option<PermissionFn>, tool: Tool, input: Input, mid: Input) {
    if canUse.None? then mid == input
    else
      var r := canUse.value(tool, input);
      r.err.None? && r.decision.Some? && r.decision.value.behavior != Deny && mid == Effective(input, r.decision.value)
  }

  /** The pre-hooks let mid through, and a rewriting of it passed the recheck as x. */
  ghost predicate HooksPass(env: Env, tool: Tool, call: Request, mid: Input, x: Input) {
    if env.hooks.None? then x == mid
    else
      var run := Run(env.hooks.value.pre, PreInput(call, mid));
      && run.Ran? && !run.blocked
      && (if Rewritten(run) == NilInput then x == mid
          else if env.recheck.None? then x == Rewritten(run)
          else RunsWith(env.recheck.value(tool, Rewritten(run)), Rewritten(run), x))
  }

  ghost predicate Reaches(env: Env, call: Request, x: Input) {
    && env.cancelledFirst.None? && env.cancelledLast.None?
    && call.name in env.registry
    && exists mid :: PolicyPasses(env.canUse, env.registry[call.name], call.input, mid)
                     && HooksPass(env, env.registry[call.name], call, mid, x)
  }

  /** The policy functions the executor is given answer with an error or with a decision. */
  ghost predicate Answering(f: Option<PermissionFn>) {
    f.Some? ==> forall tool, input :: f.value(tool, input).err.None? ==> f.value(tool, input).decision.Some?
  }

  /** How a failure before the tool is answered: by itself, unless a hook for failures fails or blocks. */
  function AfterFailure(h: HookSet, call: Request, failure: Error): Response {
    var run := Run(h.postFailure, HookInput("PostToolUseFailure", call.name, call.input, "Error: " + failure, Some(failure)));
    FailureResponse(call, if Stops(run) then StopReason(run, "Blocked by PostToolUseFailure hook") else failure)
  }

  /** Why the recheck of a rewritten input refuses it, if it does. */
  function Refusal(reply: Reply): Option<Error> {
    if reply.err.Some? then reply.err
    else if reply.decision.Some? && reply.decision.value.behavior == Allow then None
    else if reply.decision.Some? && reply.decision.value.reason != "" then Some(reply.decision.value.reason)
    else Some("Permission denied after PreToolUse modification")
  }

  /** How a call that the policy let through as mid, and that never reached its tool, is answered. */
  ghost predicate AnswersStop(env: Env, tool: Tool, request: Request, mid: Input, response: Response) {
    if env.hooks.None? then env.cancelledLast.Some? && response == FailureResponse(request, env.cancelledLast.value)
    else
      var h := env.hooks.value;
      var run := Run(h.pre, PreInput(request, mid));
      var rewritten := Rewritten(run);
      if Stops(run) then
        response == AfterFailure(h, request.(input := mid), StopReason(run, "Blocked by PreToolUse hook"))
      else if rewritten != NilInput && env.recheck.Some? && Refusal(env.recheck.value(tool, rewritten)).Some? then
        response == AfterFailure(h, request.(input := rewritten), Refusal(env.recheck.value(tool, rewritten)).value)
      else env.cancelledLast.Some? && response == FailureResponse(request, env.cancelledLast.value)
  }

  // ---------------------------------------------------------------------------
  // The call
  // ---------------------------------------------------------------------------

  lemma OneText(text: string)
    ensures TextOf([TextContent(text)]) == text
  {
    assert [TextContent(text)][..0] == [];
    assert "" + text == text;
  }

  method PostPreToolFailure(hooks: HookSet, call: Request, failure: Error) returns (response: Response)
    ensures Answers(call, response) && response.denial.None? && response.result.value.isError
    ensures response == AfterFailure(hooks, call, failure)
  {
    response := FailureResponse(call, failure);
    var text := ToolResultText(response.result.value);
    OneText("Error: " + failure);
    var post := RunHooks(hooks.postFailure, HookInput("PostToolUseFailure", call.name, call.input, text, Some(failure)));
    if post.Failed? {
      return FailureResponse(call, post.err);
    }
    if post.blocked {
      var reason := post.message;
      if reason == "" {
        reason := "Blocked by PostToolUseFailure hook";
      }
      return FailureResponse(call, reason);
    }
  }

  /** Runs one call. invoked lists the inputs handed to tool.Call. */
  method RunSingle(env: Env, request: Request) returns (response: Response, invoked: seq<Input>)
    requires Answering(env.canUse)
    ensures Answers(request, response)
    ensures |invoked| <= 1
    ensures forall x :: invoked == [x] <==> Reaches(env, request, x)
    ensures invoked == [] ==> response.result.value.isError
    ensures response.denial.Some? <==>
              && env.cancelledFirst.None? && request.name in env.registry && env.canUse.Some?
              && var r := env.canUse.value(env.registry[request.name], request.input);
                 r.err.None? && r.decision.value.behavior == Deny
    ensures invoked != [] ==> Completed(env.hooks, request.(input := invoked[0]), env.call(invoked[0]), response)
    ensures env.cancelledFirst.Some? ==> response == FailureResponse(request, env.cancelledFirst.value)
    ensures env.cancelledFirst.None? && request.name !in env.registry ==>
              && response.err.None? && response.result.value.error == "Unknown tool: " + request.name
              && response.result.value.content == [TextContent("Error: tool '" + request.name + "' not found")]
    ensures env.cancelledFirst.None? && request.name in env.registry && env.canUse.Some? ==>
              var r := env.canUse.value(env.registry[request.name], request.input);
              r.err.Some? ==> response.err.None?
                              && response.result.value == ToolResult([], true, "Permission check failed: " + r.err.value)
    ensures env.cancelledFirst.None? && request.name in env.registry && invoked == [] ==>
              forall mid :: PolicyPasses(env.canUse, env.registry[request.name], request.input, mid) ==>
                AnswersStop(env, env.registry[request.name], request, mid, response)
    ensures response.denial.Some? ==>
              var r := env.canUse.value(env.registry[request.name], request.input).decision.value;
              && response.denial.value == Denial(request.name, if r.reason == "" then "Permission denied" else r.reason)
              && response.result.value.error == response.denial.value.reason && response.err.None?
              && response.result.value.content == [TextContent("Error: " + response.denial.value.reason)]
  {
    hide Completed, HooksPass, AnswersStop;
    var call := request;
    invoked := [];
    if env.cancelledFirst.Some? {
      return FailureResponse(call, env.cancelledFirst.value), [];
    }
    if call.name !in env.registry {
      return Response(call.id, call.name,
                      Some(ToolResult([TextContent("Error: tool '" + call.name + "' not found")], true,
                                      "Unknown tool: " + call.name)),
                      None, None), [];
    }
    var tool := env.registry[call.name];
    if env.canUse.Some? {
      var reply := env.canUse.value(tool, call.input);
      if reply.err.Some? {
        return Response(call.id, call.name,
                        Some(ToolResult([], true, "Permission check failed: " + reply.err.value)), None, None), [];
      }
      var decision := reply.decision.value;
      if decision.behavior == Deny {
        var reason := decision.reason;
        if reason == "" {
          reason := "Permission denied";
        }
        return Response(call.id, call.name, Some(ToolResult([TextContent("Error: " + reason)], true, reason)),
                        None, Some(Denial(call.name, reason))), [];
      }
      if decision.updated != NilInput {
        call := call.(input := decision.updated);
      }
    }
    assert PolicyPasses(env.canUse, tool, request.input, call.input);
    response, invoked := RunPermitted(env, tool, request, call.input);
  }

  /** The part of a call after the policy: the hooks before it, the recheck, and the tool. */
  method RunPermitted(env: Env, tool: Tool, request: Request, mid: Input) returns (response: Response, invoked: seq<Input>)
    ensures Answers(request, response) && response.denial.None? && |invoked| <= 1
    ensures forall x :: invoked == [x] <==> env.cancelledLast.None? && HooksPass(env, tool, request, mid, x)
    ensures invoked == [] ==> response.result.value.isError && AnswersStop(env, tool, request, mid, response)
    ensures invoked != [] ==> Completed(env.hooks, request.(input := invoked[0]), env.call(invoked[0]), response)
  {
    hide Run, PostRun, Raw, Completed, AfterFailure;
    invoked := [];
    var call := request.(input := mid);
    if env.hooks.Some? {
      var pre := RunHooks(env.hooks.value.pre, PreInput(request, call.input));
      if pre.Failed? {
        response := PostPreToolFailure(env.hooks.value, call, pre.err);
        return response, [];
      }
      if pre.blocked {
        var reason := pre.message;
        if reason == "" {
          reason := "Blocked by PreToolUse hook";
        }
        response := PostPreToolFailure(env.hooks.value, call, reason);
        return response, [];
      }
      if pre.output.Some? && pre.output.value.updated != NilInput {
        call := call.(input := pre.output.value.updated);
        if env.recheck.Some? {
          var again := env.recheck.value(tool, call.input);
          if again.err.Some? {
            response := PostPreToolFailure(env.hooks.value, call, again.err.value);
            return response, [];
          }
          if again.decision.None? || again.decision.value.behavior != Allow {
            var reason := "Permission denied after PreToolUse modification";
            if again.decision.Some? && again.decision.value.reason != "" {
              reason := again.decision.value.reason;
            }
            response := PostPreToolFailure(env.hooks.value, call, reason);
            return response, [];
          }
          if again.decision.value.updated != NilInput {
            call := call.(input := again.decision.value.updated);
          }
        }
      }
    }
    assert HooksPass(env, tool, request, mid, call.input);
    if env.cancelledLast.Some? {
      return FailureResponse(call, env.cancelledLast.value), [];
    }
    invoked := [call.input];
    response := Finish(env, call, env.call(call.input));
  }

  /** From what the tool returned to the response: failures, missing results and the post-hooks. */
  method Finish(env: Env, call: Request, returned: Returned) returns (response: Response)
    ensures Completed(env.hooks, call, returned, response)
    ensures Answers(call, response) && response.denial.None?
  {
    var result := returned.result;
    if returned.err.Some? {
      result := FailureResponse(call, returned.err.value).result;
    }
    if result.None? {
      result := FailureResponse(call, "tool returned no result").result;
    }
    var actual := result.value;
    if env.hooks.Some? {
      var output := ToolResultText(actual);
      var run;
      if actual.isError {
        var toolErr := if returned.err.Some? then returned.err.value else actual.error;
        run := RunHooks(env.hooks.value.postFailure,
                        HookInput("PostToolUseFailure", call.name, call.input, output, Some(toolErr)));
      } else {
        run := RunHooks(env.hooks.value.post, HookInput("PostToolUse", call.name, call.input, output, None));
      }
      if run.Failed? {
        return FailureResponse(call, run.err);
      }
      if run.blocked {
        var reason := run.message;
        if reason == "" {
          reason := "Blocked by post-tool hook";
        }
        return FailureResponse(call, reason);
      }
      if run.output.Some? && run.output.value.suppressOutput {
        actual := actual.(content := []);
      }
    }
    response := Response(call.id, call.name, Some(actual), None, None);
  }

  // ---------------------------------------------------------------------------
  // What hooks are shown
  // ---------------------------------------------------------------------------

  /** A hook that blocks unless it is shown exactly want, and otherwise may ask to hide the output. */
  function Expects(want: HookInput, suppress: bool): HookRule {
    HookRule(name => true, [],
             [(i: HookInput) => ExReply(Some(HookOutput(if i == want then "" else "block", "", suppress, NilInput)), None)])
  }

  lemma ExpectsPasses(want: HookInput, suppress: bool)
    ensures Run([Expects(want, suppress)], want) == Ran(false, "", Some(HookOutput("", "", suppress, NilInput)), 1)
  {
    var steps := AllSteps([Expects(want, suppress)], want);
    OneRule(Expects(want, suppress), want);
    assert steps == [Ex(ExReply(Some(HookOutput("", "", suppress, NilInput)), None))];
    NeverStopped(steps);
  }

  /** The hooks before a call are shown the event, the tool, and the input that the policy left in force. */
  lemma PreHookIsShown(env: Env, tool: Tool, call: Request, mid: Input, x: Input)
    requires env.hooks == Some(HookSet([Expects(HookInput("PreToolUse", call.name, mid, "", None), false)], [], []))
    ensures HooksPass(env, tool, call, mid, x) <==> x == mid
  {
    ExpectsPasses(HookInput("PreToolUse", call.name, mid, "", None), false);
    hide Run;
  }

  /** The hooks for failures are shown a failure before the call as its text and as its error. */
  lemma FailureHookIsShown(call: Request, failure: Error, suppress: bool)
    ensures var want := HookInput("PostToolUseFailure", call.name, call.input, "Error: " + failure, Some(failure));
            AfterFailure(HookSet([], [], [Expects(want, suppress)]), call, failure) == FailureResponse(call, failure)
  {
    ExpectsPasses(HookInput("PostToolUseFailure", call.name, call.input, "Error: " + failure, Some(failure)), suppress);
    hide Run;
  }

  /** After a call that succeeds, the hooks for success are shown its text and the input it was made with, and
      when they hide the output only the content goes. */
  lemma PostHookIsShown(call: Request, result: ToolResult, suppress: bool, response: Response)
    requires !result.isError
    requires var text := if TextOf(result.content) == "" then result.error else TextOf(result.content);
             var want := HookInput("PostToolUse", call.name, call.input, text, None);
             Completed(Some(HookSet([], [Expects(want, suppress)], [])), call, Returned(Some(result), None), response)
    ensures response.err.None? && response.result == Some(if suppress then result.(content := []) else result)
  {
    ExpectsPasses(HookInput("PostToolUse", call.name, call.input,
                            if TextOf(result.content) == "" then result.error else TextOf(result.content), None), suppress);
    hide Run, TextOf;
  }

  /** After a call that returns an error, the hooks for failures are shown it in the same way. */
  lemma PostFailureHookIsShown(call: Request, result: Option<ToolResult>, err: Error, suppress: bool, response: Response)
    requires var want := HookInput("PostToolUseFailure", call.name, call.input, "Error: " + err, Some(err));
             Completed(Some(HookSet([], [], [Expects(want, suppress)])), call, Returned(result, Some(err)), response)
    ensures response.err.None?
    ensures response.result == Some(ToolResult(if suppress then [] else [TextContent("Error: " + err)], true, err))
  {
    ExpectsPasses(HookInput("PostToolUseFailure", call.name, call.input, "Error: " + err, Some(err)), suppress);
    OneText("Error: " + err);
    hide Run, TextOf;
  }

  // ---------------------------------------------------------------------------
  // The agent's policy around the host callback
  // ---------------------------------------------------------------------------

  /** The host callback behind its PermissionRequest hooks. */
  function HookedHost(hooks: seq<HookRule>, host: PermissionFn): PermissionFn {
    (tool: Tool, input: Input) =>
      var run := Run(hooks, HookInput("PermissionRequest", tool.name, input, "", None));
      if run.Failed? then Reply(None, Some(run.err))
      else if run.blocked then
        Refuse(if run.message == "" then "Blocked by PermissionRequest hook" else run.message)
      else
        var hookUpdated := Rewritten(run) != NilInput;
        var checkedInput := if hookUpdated then Rewritten(run) else input;
        var reply := host(tool, checkedInput);
        if reply.decision.Some? && reply.decision.value.updated == NilInput && hookUpdated
        then reply.(decision := Some(reply.decision.value.(updated := checkedInput)))
        else reply
  }

  /** What the hooked host lets run: the host saw the input after the hooks, and its own rewriting
      goes before theirs. */
  lemma HookedHostExactly(hooks: seq<HookRule>, host: PermissionFn, tool: Tool, input: Input, x: Input)
    ensures RunsWith(HookedHost(hooks, host)(tool, input), input, x)
       <==> var run := Run(hooks, HookInput("PermissionRequest", tool.name, input, "", None));
            var seen := if Rewritten(run) == NilInput then input else Rewritten(run);
            run.Ran? && !run.blocked && RunsWith(host(tool, seen), seen, x)
    ensures var run := Run(hooks, HookInput("PermissionRequest", tool.name, input, "", None));
            && (run.Failed? ==> HookedHost(hooks, host)(tool, input).err == Some(run.err))
            && (run.Ran? && run.blocked ==>
                  HookedHost(hooks, host)(tool, input)
                    == Refuse(if run.message == "" then "Blocked by PermissionRequest hook" else run.message))
  {
  }

  /** The hooks around the host are shown the tool and the input it is asked about. */
  lemma PermissionHookIsShown(host: PermissionFn, tool: Tool, input: Input)
    ensures var want := HookInput("PermissionRequest", tool.name, input, "", None);
            HookedHost([Expects(want, false)], host)(tool, input) == host(tool, input)
  {
    ExpectsPasses(HookInput("PermissionRequest", tool.name, input, "", None), false);
    hide Run;
  }

  /** The policy that the executor asks first. */
  function AgentPolicy(b: Bounds, snap: Snapshot, hooks: seq<HookRule>, host: Option<PermissionFn>): PermissionFn {
    (tool: Tool, input: Input) =>
      Decide(b, snap, if host.None? then None else Some(HookedHost(hooks, host.value)), Some(tool), input)
  }

  /** Exactly when the agent's first check lets a tool run, and with which input, in terms of the host that
      embeds the agent: what it was shown is the input after the permission hooks, and what it lets run must
      be permitted like the original. */
  lemma AgentAllowsExactly(b: Bounds, snap: Snapshot, hooks: seq<HookRule>, host: PermissionFn, tool: Tool, input: Input, x: Input)
    ensures RunsWith(AgentPolicy(b, snap, hooks, Some(host))(tool, input), input, x)
       <==> var run := Run(hooks, HookInput("PermissionRequest", tool.name, input, "", None));
            var seen := if Rewritten(run) == NilInput then input else Rewritten(run);
            && Permitted(b, snap, tool, input) && Permitted(b, snap, tool, x)
            && (AsksHost(snap.mode) || Preapproved(b, snap, tool, input))
            && run.Ran? && !run.blocked && RunsWith(host(tool, seen), seen, x)
  {
    HookedHostExactly(hooks, host, tool, input, x);
    AllowedExactly(b, snap, Some(HookedHost(hooks, host)), tool, input, x);
  }

  /** The policy that it asks about a rewritten input. */
  function AgentRecheck(b: Bounds, snap: Snapshot): PermissionFn {
    (tool: Tool, input: Input) => BoundsPolicy(b, snap, Some(tool), input)
  }

  /** The original input and the input approved first are permitted, and so is what the hooks made of it. */
  ghost predicate PermittedThroughout(b: Bounds, first: Snapshot, second: Snapshot, tool: Tool, input: Input, x: Input) {
    && Permitted(b, first, tool, input)
    && (Permitted(b, first, tool, x)
        || (Permitted(b, second, tool, x) && (AsksHost(second.mode) || Preapproved(b, second, tool, x))))
  }

  /** Main result: whatever the host callback, the hooks, the mode and the rules do, and even when mode
      and rules change between the two checks, the tool receives only an input that is permitted. */
  lemma Mediation(env: Env, request: Request, b: Bounds, first: Snapshot, second: Snapshot,
                  hooks: seq<HookRule>, host: Option<PermissionFn>, x: Input)
    requires env.canUse == Some(AgentPolicy(b, first, hooks, host)) && env.recheck == Some(AgentRecheck(b, second))
    requires Reaches(env, request, x)
    ensures PermittedThroughout(b, first, second, env.registry[request.name], request.input, x)
  {
    var tool := env.registry[request.name];
    var mid :| PolicyPasses(env.canUse, tool, request.input, mid) && HooksPass(env, tool, request, mid, x);
    var callback := if host.None? then None else Some(HookedHost(hooks, host.value));
    RepliesAreNormal(b, first, callback, Some(tool), request.input);
    AllowedExactly(b, first, callback, tool, request.input, mid);
    if env.hooks.Some? {
      var u := Rewritten(Run(env.hooks.value.pre, PreInput(request, mid)));
      if u != NilInput {
        BoundsPolicyExactly(b, second, tool, u);
        assert u == x;
      }
    }
  }

  /** The agent's executor: permitted inputs only, at most one call, and an answer for the request. */
  method RunAgentTool(env: Env, request: Request, b: Bounds, first: Snapshot, second: Snapshot,
                      permissionHooks: seq<HookRule>, host: Option<PermissionFn>)
    returns (response: Response, invoked: seq<Input>)
    ensures Answers(request, response) && |invoked| <= 1
    ensures invoked != [] ==>
              && request.name in env.registry
              && PermittedThroughout(b, first, second, env.registry[request.name], request.input, invoked[0])
  {
    var agent := env.(canUse := Some(AgentPolicy(b, first, permissionHooks, host)),
                      recheck := Some(AgentRecheck(b, second)));
    AgentPolicyAnswers(b, first, permissionHooks, host);
    response, invoked := RunSingle(agent, request);
    if invoked != [] {
      assert invoked == [invoked[0]];
      Mediation(agent, request, b, first, second, permissionHooks, host, invoked[0]);
    }
  }

  lemma AgentPolicyAnswers(b: Bounds, snap: Snapshot, hooks: seq<HookRule>, host: Option<PermissionFn>)
    ensures Answering(Some(AgentPolicy(b, snap, hooks, host)))
  {
  }
}
