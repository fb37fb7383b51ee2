/** The turn loop of a run (agent/loop.go runLoop, buildAPIMessages).

    What happens outside the loop is given turn by turn: readings of the context, the events of each
    provider attempt, hook outcomes, the results of the tool batch and whether events could be emitted. */
module TurnLoop {
  import opened Types
  import opened ToolCall
  import opened Conversation
  import opened Assembly
  import Accounting
  import Budget
  import Scheduler

  datatype Config = Config(maxTurns: int, model: string, fallbackModel: string, budget: Budget.Options, parse: Parser)

  /** One call of readStream: the context as it starts, the events it would process and the error it would
      return after them. With an ended context it returns before the provider is asked. */
  datatype Attempt = Attempt(atStart: Option<Error>, stream: seq<Event>, end: Option<Error>) {
    function Events(): seq<Event> {
      if atStart.Some? then [] else stream
    }

    function Err(): Option<Error> {
      if atStart.Some? then atStart else end
    }
  }

  datatype Turn = Turn(admission: Option<Error>, primary: Attempt, afterStream: Option<Error>, fallback: Attempt,
                       postSampling: Option<Error>, emitAssistant: Option<Error>, beforeTools: Option<Error>,
                       results: seq<Response>, toolCharge: real, emitResult: nat -> Option<Error>)

  datatype Exit =
    | Succeeded
    | OutOfTurns
    | NotAdmitted(why: Budget.Admission)
    | StreamFailed(onFallback: bool, err: Error)
    | HookFailed(err: Error)
    | AssistantNotEmitted(err: Error)
    | ToolsNotAdmitted(why: Budget.Admission)
    | ResultNotEmitted(err: Error)

  /** A provider request: the model, the history sent, the run's cost at that moment. */
  datatype Sent = Sent(model: string, messages: seq<Message>, cost: real)

  // ---------------------------------------------------------------------------
  // Pairing
  // ---------------------------------------------------------------------------

  /** r carries one result for each tool use of a, with the same ids in the same order, and nothing else. */
  ghost predicate AnsweredBy(a: Message, r: Message) {
    && r.role.User? && |r.content| == |Uses(a.content)|
    && forall k :: 0 <= k < |r.content| ==>
         r.content[k].kind.ToolResultKind? && r.content[k].toolUseID == Uses(a.content)[k].id
  }

  predicate Asks(m: Message) {
    m.role.Assistant? && Uses(m.content) != []
  }

  ghost predicate Paired(h: seq<Message>) {
    forall k :: 0 <= k < |h| && Asks(h[k]) ==> k + 1 < |h| && AnsweredBy(h[k], h[k + 1])
  }

  /** Appending a message that asks for nothing keeps a history paired. */
  lemma PairedQuiet(h: seq<Message>, m: Message)
    requires Paired(h) && !Asks(m)
    ensures Paired(h + [m])
  {
    var g := h + [m];
    forall k | 0 <= k < |g| && Asks(g[k]) ensures k + 1 < |g| && AnsweredBy(g[k], g[k + 1]) {
      assert g[k] == h[k] && g[k + 1] == h[k + 1];
    }
  }

  lemma PairedTurn(h: seq<Message>, a: Message, r: Message)
    requires Paired(h) && AnsweredBy(a, r)
    ensures Paired(h + [a, r])
  {
    var g := h + [a, r];
    forall k | 0 <= k < |g| && Asks(g[k]) ensures k + 1 < |g| && AnsweredBy(g[k], g[k + 1]) {
      if k < |h| {
        assert g[k] == h[k] && g[k + 1] == h[k + 1];
      } else {
        assert k == |h| && g[k] == a && g[k + 1] == r;
      }
    }
  }

  /** A history that ends in an assistant message is paired exactly when what is before it is and the
      message asks for nothing. */
  lemma PairedTailExactly(h: seq<Message>, a: Message)
    requires a.role.Assistant?
    ensures Paired(h + [a]) <==> Paired(h) && !Asks(a)
  {
    var g := h + [a];
    if Paired(g) {
      assert g[|h|] == a;
      forall k | 0 <= k < |h| && Asks(h[k]) ensures k + 1 < |h| && AnsweredBy(h[k], h[k + 1]) {
        assert Asks(g[k]) && AnsweredBy(g[k], g[k + 1]);
        assert g[k + 1].role.User?;
      }
    } else if Paired(h) && !Asks(a) {
      PairedQuiet(h, a);
    }
  }

  // ---------------------------------------------------------------------------
  // What is sent to the provider
  // ---------------------------------------------------------------------------

  function Normalized(b: Block): Block {
    match b.kind
    case TextKind => EmptyBlock.(kind := TextKind, text := b.text)
    case ToolUse =>
      EmptyBlock.(kind := ToolUse, id := b.id, name := b.name, input := if b.input.NilInput? then Object(map[]) else b.input)
    case ToolResultKind =>
      EmptyBlock.(kind := ToolResultKind, toolUseID := b.toolUseID, isError := b.isError, content := b.content)
    case ThinkingKind => EmptyBlock.(kind := ThinkingKind, thinking := b.thinking)
    case OtherKind(_) => b
  }

  function NormalizedAll(content: seq<Block>): seq<Block> {
    seq(|content|, k requires 0 <= k < |content| => Normalized(content[k]))
  }

  function Built(h: seq<Message>): seq<Message> {
    seq(|h|, k requires 0 <= k < |h| => Message(h[k].role, NormalizedAll(h[k].content)))
  }

  /** The uses a provider sees: the same ids and names, and an input that is never nil. */
  lemma {:induction false} NormalizedUses(content: seq<Block>)
    ensures SameIds(Uses(NormalizedAll(content)), Uses(content))
    ensures forall k :: 0 <= k < |Uses(content)| ==>
              var sent := Uses(NormalizedAll(content))[k].input;
              sent == (if Uses(content)[k].input.NilInput? then Object(map[]) else Uses(content)[k].input)
  {
    if content != [] {
      var n := |content| - 1;
      NormalizedUses(content[..n]);
      assert NormalizedAll(content)[..n] == NormalizedAll(content[..n]);
    }
  }

  lemma AnsweredWhenBuilt(a: Message, r: Message)
    ensures AnsweredBy(a, r) <==> AnsweredBy(Message(a.role, NormalizedAll(a.content)), Message(r.role, NormalizedAll(r.content)))
  {
    NormalizedUses(a.content);
    forall k | 0 <= k < |r.content|
      ensures NormalizedAll(r.content)[k].kind == r.content[k].kind
      ensures r.content[k].kind.ToolResultKind? ==> NormalizedAll(r.content)[k].toolUseID == r.content[k].toolUseID
    {
    }
  }

  /** Building the request neither breaks nor mends the pairing. */
  lemma BuiltKeepsPairing(h: seq<Message>)
    ensures Paired(Built(h)) <==> Paired(h)
  {
    var g := Built(h);
    forall k | 0 <= k < |h| ensures Asks(g[k]) <==> Asks(h[k]) {
      NormalizedUses(h[k].content);
    }
    forall k | 0 <= k < |h| - 1 ensures AnsweredBy(g[k], g[k + 1]) <==> AnsweredBy(h[k], h[k + 1]) {
      AnsweredWhenBuilt(h[k], h[k + 1]);
    }
    assert Paired(g) ==> Paired(h) by {
      if Paired(g) {
        forall k | 0 <= k < |h| && Asks(h[k]) ensures k + 1 < |h| && AnsweredBy(h[k], h[k + 1]) {
          assert Asks(g[k]);
        }
      }
    }
    assert Paired(h) ==> Paired(g) by {
      if Paired(h) {
        forall k | 0 <= k < |g| && Asks(g[k]) ensures k + 1 < |g| && AnsweredBy(g[k], g[k + 1]) {
          assert Asks(h[k]);
        }
      }
    }
  }

  /** What a block is for is what the provider gets of it: text, thinking, the request for a tool, or the
      result with its error mark. Blocks of other kinds go out as they are. */
  lemma BlockReachesProvider(content: seq<Block>, k: nat)
    requires k < |content|
    ensures |NormalizedAll(content)| == |content|
    ensures var b, sent := content[k], NormalizedAll(content)[k];
            && sent.kind == b.kind
            && (b.kind.TextKind? ==> sent.text == b.text)
            && (b.kind.ThinkingKind? ==> sent.thinking == b.thinking)
            && (b.kind.ToolUse? ==> sent.id == b.id && sent.name == b.name)
            && (b.kind.ToolResultKind? ==> sent.toolUseID == b.toolUseID && sent.content == b.content && sent.isError == b.isError)
            && (b.kind.OtherKind? ==> sent == b)
    ensures NormalizedAll(NormalizedAll(content))[k] == NormalizedAll(content)[k]
  {
  }

  lemma {:induction false} TextsReachProvider(content: seq<Block>)
    ensures Texts(NormalizedAll(content)) == Texts(content)
  {
    if content != [] {
      var n := |content| - 1;
      TextsReachProvider(content[..n]);
      BlockReachesProvider(content, n);
      assert NormalizedAll(content)[..n] == NormalizedAll(content[..n]);
    }
  }

  // ---------------------------------------------------------------------------
  // What one turn contributes
  // ---------------------------------------------------------------------------

  /** The attempt a turn that goes on is made of. */
  function Chosen(t: Turn): Attempt {
    if t.primary.Err().None? then t.primary else t.fallback
  }

  predicate HasFallback(c: Config) {
    c.fallbackModel != "" && c.model != c.fallbackModel
  }

  predicate FallsBack(c: Config, t: Turn) {
    t.primary.Err().Some? && t.afterStream.None? && HasFallback(c)
  }

  function UsedModel(c: Config, t: Turn): string {
    if t.primary.Err().None? then c.model else c.fallbackModel
  }

  function AssistantOf(c: Config, t: Turn): Message {
    Message(Assistant, ContentOf(c.parse, Chosen(t).Events()))
  }

  function CallsOf(uses: seq<Use>): seq<Request> {
    seq(|uses|, k requires 0 <= k < |uses| => Request(uses[k].id, uses[k].name, uses[k].input))
  }

  function CallsIn(c: Config, t: Turn): seq<Request> {
    CallsOf(SideList(c.parse, Chosen(t).Events()))
  }

  function ResultContent(r: ToolResult): seq<Content> {
    if r.content == [] then [TextContent(if r.error != "" then r.error else "(no output)")] else r.content
  }

  function ResultBlock(r: Response): Block
    requires r.result.Some?
  {
    EmptyBlock.(kind := ToolResultKind, toolUseID := r.id, content := ResultContent(r.result.value), isError := r.result.value.isError)
  }

  predicate AllThere(rs: seq<Response>) {
    forall k :: 0 <= k < |rs| ==> rs[k].result.Some?
  }

  function ResultBlocks(rs: seq<Response>): seq<Block>
    requires AllThere(rs)
  {
    seq(|rs|, k requires 0 <= k < |rs| => ResultBlock(rs[k]))
  }

  function ResultsOf(t: Turn): Message
    requires AllThere(t.results)
  {
    Message(User, ResultBlocks(t.results))
  }

  function ChargeOf(c: Config, t: Turn): real {
    match UsageOf(Chosen(t).Events())
    case Some(u) => Accounting.CalculateCost(UsedModel(c, t), u)
    case None => 0.0
  }

  function DenialsOf(rs: seq<Response>): seq<Denial> {
    if rs == [] then []
    else
      var last := rs[|rs| - 1];
      DenialsOf(rs[..|rs| - 1]) + if last.denial.Some? then [last.denial.value] else []
  }

  // ---------------------------------------------------------------------------
  // The environment
  // ---------------------------------------------------------------------------

  /** The results are those of a finished schedule of the batch. */
  ghost predicate Batched(calls: seq<Request>, rs: seq<Response>) {
    exists b: Scheduler.Batch, run: seq<Scheduler.State> :: ResultOf(b, run, calls, rs)
  }

  ghost predicate ResultOf(b: Scheduler.Batch, run: seq<Scheduler.State>, calls: seq<Request>, rs: seq<Response>) {
    && Scheduler.ValidBatch(b) && b.calls == calls && Scheduler.Schedule(b, run) && |run| > 0
    && var s := run[|run| - 1];
       && s.main.Finished? && |s.results| == |rs|
       && forall k :: 0 <= k < |rs| ==> s.results[k] == Some(rs[k])
  }

  /** From the scheduler: every request has its own answer in its own place, however the batch was scheduled. */
  lemma BatchAnswers(calls: seq<Request>, rs: seq<Response>)
    requires Batched(calls, rs)
    ensures |rs| == |calls| && AllThere(rs) && forall k :: 0 <= k < |rs| ==> Answers(calls[k], rs[k])
  {
    var b: Scheduler.Batch, run: seq<Scheduler.State> :| ResultOf(b, run, calls, rs);
    Scheduler.BatchComplete(b, run, |run| - 1);
  }

  /** Such results exist for every batch: none is so large or so ordered that it cannot finish. */
  lemma EveryBatchHasResults(calls: seq<Request>) returns (rs: seq<Response>)
    ensures Batched(calls, rs)
  {
    var b := Scheduler.Batch(calls, 1, seq(|calls|, k => None));
    var run := Scheduler.EveryBatchFinishes(b);
    Scheduler.BatchComplete(b, run, |run| - 1);
    var s := run[|run| - 1];
    rs := seq(|calls|, k requires 0 <= k < |calls| => s.results[k].value);
    assert ResultOf(b, run, calls, rs);
  }

  type Env = nat -> Turn

  ghost predicate Executed(c: Config, env: Env) {
    forall n: nat :: Batched(CallsIn(c, env(n)), env(n).results)
  }

  lemma TurnAnswers(c: Config, env: Env, n: nat)
    requires Executed(c, env)
    ensures AllThere(env(n).results) && |env(n).results| == |CallsIn(c, env(n))|
    ensures AnsweredBy(AssistantOf(c, env(n)), ResultsOf(env(n)))
    ensures Asks(AssistantOf(c, env(n))) <==> SideList(c.parse, Chosen(env(n)).Events()) != []
  {
    assert Batched(CallsIn(c, env(n)), env(n).results);
    BatchAnswers(CallsIn(c, env(n)), env(n).results);
    SideListHasTheIds(c.parse, Chosen(env(n)).Events());
  }

  /** The history after n complete turns. */
  ghost function History(c: Config, env: Env, start: seq<Message>, n: nat): seq<Message>
    requires Executed(c, env)
  {
    if n == 0 then start
    else
      TurnAnswers(c, env, n);
      History(c, env, start, n - 1) + [AssistantOf(c, env(n)), ResultsOf(env(n))]
  }

  ghost function CostAfter(c: Config, env: Env, start: real, n: nat): real {
    if n == 0 then start else CostAfter(c, env, start, n - 1) + ChargeOf(c, env(n)) + env(n).toolCharge
  }

  lemma {:induction false} HistoryGrowsByTwo(c: Config, env: Env, start: seq<Message>, n: nat)
    requires Executed(c, env)
    ensures |History(c, env, start, n)| == |start| + 2 * n
  {
    if n > 0 {
      HistoryGrowsByTwo(c, env, start, n - 1);
    }
  }

  /** What the model is told about a tool's answer: whose it is, whether it is an error, and its content or,
      if there is none, its error text or else "(no output)". */
  predicate TellsResult(sent: Block, r: Response) {
    && sent.kind.ToolResultKind? && sent.toolUseID == r.id && r.result.Some?
    && sent.isError == r.result.value.isError
    && (r.result.value.content != [] ==> sent.content == r.result.value.content)
    && (r.result.value.content == [] && r.result.value.error != "" ==> sent.content == [TextContent(r.result.value.error)])
    && (r.result.value.content == [] && r.result.value.error == "" ==> sent.content == [TextContent("(no output)")])
  }

  /** The request after a complete turn ends in the text the model gave, as it was assembled, and in one
      block for each request it made, in order, that tells the answer of that request. */
  lemma RequestTells(c: Config, env: Env, start: seq<Message>, n: nat)
    requires Executed(c, env) && n > 0
    ensures var g, t := Built(History(c, env, start, n)), env(n);
            && |g| >= 2 && g[|g| - 2].role.Assistant? && g[|g| - 1].role.User?
            && Texts(g[|g| - 2].content) == Texts(ContentOf(c.parse, Chosen(t).Events()))
            && |g[|g| - 1].content| == |t.results| == |CallsIn(c, t)|
            && forall k :: 0 <= k < |t.results| ==>
                 TellsResult(g[|g| - 1].content[k], t.results[k]) && Answers(CallsIn(c, t)[k], t.results[k])
  {
    hide AnsweredBy, Asks, Normalized;
    TurnAnswers(c, env, n);
    assert Batched(CallsIn(c, env(n)), env(n).results);
    BatchAnswers(CallsIn(c, env(n)), env(n).results);
    var t, h := env(n), History(c, env, start, n);
    assert h[|h| - 2] == AssistantOf(c, t) && h[|h| - 1] == ResultsOf(t);
    TextsReachProvider(AssistantOf(c, t).content);
    forall k | 0 <= k < |t.results| ensures TellsResult(Built(h)[|h| - 1].content[k], t.results[k]) {
      BlockReachesProvider(ResultsOf(t).content, k);
    }
  }

  lemma {:induction false} HistoryIsPaired(c: Config, env: Env, start: seq<Message>, n: nat)
    requires Executed(c, env) && Paired(start)
    ensures Paired(History(c, env, start, n))
  {
    hide Paired, AnsweredBy, AssistantOf, ResultsOf, Executed, AllThere, SideList, Asks;
    if n > 0 {
      HistoryIsPaired(c, env, start, n - 1);
      TurnAnswers(c, env, n);
      PairedTurn(History(c, env, start, n - 1), AssistantOf(c, env(n)), ResultsOf(env(n)));
    }
  }

  // ---------------------------------------------------------------------------
  // The loop
  // ---------------------------------------------------------------------------

  function StreamExit(c: Config, t: Turn): Option<Exit> {
    if t.primary.Err().None? then None
    else if !FallsBack(c, t) then Some(StreamFailed(false, t.primary.Err().value))
    else if t.fallback.Err().Some? then Some(StreamFailed(true, t.fallback.Err().value))
    else None
  }

  /** The requests of a turn: none for an attempt whose context has ended as it starts. */
  function Requests(c: Config, t: Turn, api: seq<Message>, cost: real): seq<Sent> {
    (if t.primary.atStart.None? then [Sent(c.model, api, cost)] else [])
    + if FallsBack(c, t) && t.fallback.atStart.None? then [Sent(c.fallbackModel, api, cost)] else []
  }

  function Prompt(prompt: string): Message {
    Message(User, [EmptyBlock.(text := prompt)])
  }

  lemma PromptIsQuiet(h: seq<Message>, prompt: string)
    requires Paired(h)
    ensures Paired(h + [Prompt(prompt)])
  {
    PairedQuiet(h, Prompt(prompt));
  }

  /** The first request of a run ends in its prompt. */
  lemma PromptReachesProvider(h: seq<Message>, prompt: string)
    ensures var g := Built(h + [Prompt(prompt)]);
            |g| == |h| + 1 && g[|h|].role.User? && |g[|h|].content| == 1 && Texts(g[|h|].content) == prompt
  {
    var content := Prompt(prompt).content;
    TextsReachProvider(content);
    assert content[..0] == [];
    assert "" + prompt == prompt;
  }

  /** How often a turn asks, and whom: the fallback model is asked after the main one has failed under a live
      context, and only when there is one and it is another model. The same history goes to both. */
  lemma RequestsExactly(c: Config, t: Turn, api: seq<Message>, cost: real)
    ensures var sent := Requests(c, t, api, cost);
            && (forall k :: 0 <= k < |sent| ==> sent[k] in {Sent(c.model, api, cost), Sent(c.fallbackModel, api, cost)})
            && (|sent| == 2 <==> && t.primary.atStart.None? && t.primary.end.Some? && t.afterStream.None?
                                 && c.fallbackModel != "" && c.fallbackModel != c.model && t.fallback.atStart.None?)
            && (|sent| == 2 ==> sent[0].model == c.model && sent[1].model == c.fallbackModel)
    ensures StreamExit(c, t).None? ==>
              var sent := Requests(c, t, api, cost);
              && sent != [] && UsedModel(c, t) == sent[|sent| - 1].model
              && Chosen(t).Events() == if sent[|sent| - 1].model == c.model then t.primary.stream else t.fallback.stream
  {
  }

  /** A turn is charged for the usage that the chosen stream reported, at the price of the model that was asked
      last. */
  lemma ChargeExactly(c: Config, t: Turn, before: seq<Event>, model: string, usage: Accounting.Usage, later: seq<Event>)
    requires StreamExit(c, t).None? && forall k :: 0 <= k < |later| ==> !later[k].MessageStart?
    requires Chosen(t).Events() == before + [MessageStart(Some(Started(model, Some(usage))))] + later
    ensures var sent := Requests(c, t, [], 0.0);
            && sent != []
            && ChargeOf(c, t) == Accounting.CalculateCost(sent[|sent| - 1].model,
                                                          usage.(output := usage.output + LaterOutput(later)))
  {
    UsageExactly(before, model, usage, later);
    RequestsExactly(c, t, [], 0.0);
    hide UsageOf, Accounting.CalculateCost;
  }

  /** The denials reported are those of the results that carry one, in order: at lists their places. */
  lemma {:induction false} DenialsExactly(rs: seq<Response>) returns (at: seq<nat>)
    ensures |DenialsOf(rs)| == |at|
    ensures forall k :: 0 <= k < |at| ==> at[k] < |rs| && rs[at[k]].denial == Some(DenialsOf(rs)[k])
    ensures forall j, k :: 0 <= j < k < |at| ==> at[j] < at[k]
    ensures forall i :: 0 <= i < |rs| ==> (i in at <==> rs[i].denial.Some?)
  {
    if rs == [] {
      at := [];
    } else {
      var n := |rs| - 1;
      var before := DenialsExactly(rs[..n]);
      LastDenial(rs);
      hide DenialsOf;
      assert forall i :: 0 <= i < n ==> (i in before <==> rs[..n][i].denial.Some?);
      if rs[n].denial.Some? {
        at := before + [n];
        assert forall i :: i in at <==> i in before || i == n;
      } else {
        at := before;
      }
    }
  }

  lemma LastDenial(rs: seq<Response>)
    requires rs != []
    ensures var n := |rs| - 1;
            DenialsOf(rs) == DenialsOf(rs[..n]) + if rs[n].denial.Some? then [rs[n].denial.value] else []
  {
  }

  /** The turn got its answer past the hooks, and the answer is recorded. */
  predicate Answered(c: Config, t: Turn) {
    StreamExit(c, t).None? && t.postSampling.None?
  }

  /** Turn n asks for tools, and then the message cannot be emitted or the budget and context check before
      the tools refuses. */
  ghost predicate CutShort(c: Config, env: Env, cost0: real, n: nat) {
    && n >= 1 && Answered(c, env(n)) && Asks(AssistantOf(c, env(n)))
    && (env(n).emitAssistant.Some?
        || !Budget.CheckAdmission(c.budget, env(n).beforeTools, CostAfter(c, env, cost0, n - 1) + ChargeOf(c, env(n))).Admitted?)
  }

  /** A run, its session's messages and its ledger's cost. */
  class Run {
    const cfg: Config
    var messages: seq<Message>
    var numTurns: nat
    var stopReason: string
    var cost: real
    var denials: seq<Denial>
    ghost var sent: seq<Sent>

    constructor (cfg: Config, messages: seq<Message>, cost: real)
      ensures this.cfg == cfg && this.messages == messages && this.cost == cost
      ensures numTurns == 0 && denials == [] && sent == []
    {
      this.cfg, this.messages, this.cost := cfg, messages, cost;
      numTurns, stopReason, denials, sent := 0, "", [], [];
    }

    method AppendMessage(m: Message)
      modifies this`messages
      ensures messages == old(messages) + [m]
    {
      messages := messages + [m];
    }

    method BuildAPIMessages() returns (api: seq<Message>)
      ensures api == Built(messages)
    {
      api := [];
      for k := 0 to |messages|
        invariant api == Built(messages[..k])
      {
        var normalized: seq<Block> := [];
        var content := messages[k].content;
        for j := 0 to |content|
          invariant normalized == NormalizedAll(content[..j])
        {
          var b := content[j];
          match b.kind {
            case TextKind => normalized := normalized + [EmptyBlock.(kind := TextKind, text := b.text)];
            case ToolUse =>
              var input := b.input;
              if input.NilInput? {
                input := Object(map[]);
              }
              normalized := normalized + [EmptyBlock.(kind := ToolUse, id := b.id, name := b.name, input := input)];
            case ToolResultKind =>
              var tb := EmptyBlock.(kind := ToolResultKind, toolUseID := b.toolUseID, isError := b.isError);
              if |b.content| > 0 {
                tb := tb.(content := b.content);
              }
              normalized := normalized + [tb];
            case ThinkingKind => normalized := normalized + [EmptyBlock.(kind := ThinkingKind, thinking := b.thinking)];
            case OtherKind(_) => normalized := normalized + [b];
          }
          assert content[..j + 1] == content[..j] + [b];
        }
        assert content[..|content|] == content;
        api := api + [Message(messages[k].role, normalized)];
        assert messages[..k + 1] == messages[..k] + [messages[k]];
      }
      assert messages[..|messages|] == messages;
    }

    method ReadStream(attempt: Attempt, assembler: Assembler) returns (err: Option<Error>, asked: bool)
      requires assembler.Valid()
      modifies assembler
      ensures assembler.Valid() && assembler.seen == old(assembler.seen) + attempt.Events()
      ensures err == attempt.Err()
      ensures asked == attempt.atStart.None?
    {
      if attempt.atStart.Some? {
        return attempt.atStart, false;
      }
      assert attempt.Events() == attempt.stream && attempt.Err() == attempt.end;
      ProcessAll(attempt.stream, assembler);
      return attempt.end, true;
    }

    method ProcessAll(events: seq<Event>, assembler: Assembler)
      requires assembler.Valid()
      modifies assembler
      ensures assembler.Valid() && assembler.seen == old(assembler.seen) + events
    {
      hide *;
      for k := 0 to |events|
        invariant assembler.Valid() && assembler.seen == old(assembler.seen) + events[..k]
      {
        assembler.ProcessStreamEvent(events[k]);
        assert events[..k + 1] == events[..k] + [events[k]];
      }
      assert events[..|events|] == events;
    }

    /** One attempt, and one more on the fallback model from an empty message. */
    method AskModel(t: Turn) returns (assembler: Assembler, model: string, failure: Option<Exit>)
      modifies this`sent
      ensures failure == StreamExit(cfg, t)
      ensures failure.None? ==>
                && fresh(assembler) && assembler.Valid() && assembler.parse == cfg.parse
                && assembler.seen == Chosen(t).Events() && model == UsedModel(cfg, t)
      ensures sent == old(sent) + Requests(cfg, t, Built(messages), cost)
    {
      var api := BuildAPIMessages();
      assembler := new Assembler(cfg.parse);
      model := cfg.model;
      failure := None;
      var err, asked := ReadStream(t.primary, assembler);
      if asked {
        sent := sent + [Sent(model, api, cost)];
      }
      if err.Some? && t.afterStream.None? && cfg.fallbackModel != "" && cfg.model != cfg.fallbackModel {
        assembler := new Assembler(cfg.parse);
        var again, askedAgain := ReadStream(t.fallback, assembler);
        if askedAgain {
          sent := sent + [Sent(cfg.fallbackModel, api, cost)];
        }
        if again.Some? {
          failure := Some(StreamFailed(true, again.value));
          return;
        }
        model := cfg.fallbackModel;
      } else if err.Some? {
        failure := Some(StreamFailed(false, err.value));
      }
    }

    method CollectDenials(results: seq<Response>)
      modifies this`denials
      ensures denials == old(denials) + DenialsOf(results)
    {
      for k := 0 to |results|
        invariant denials == old(denials) + DenialsOf(results[..k])
      {
        assert results[..k + 1][..k] == results[..k];
        if results[k].denial.Some? {
          denials := denials + [results[k].denial.value];
        }
      }
      assert results[..|results|] == results;
    }

    method ToolResultMessage(results: seq<Response>) returns (m: Message)
      requires AllThere(results)
      ensures m == Message(User, ResultBlocks(results))
    {
      var blocks: seq<Block> := [];
      for k := 0 to |results|
        invariant blocks == ResultBlocks(results[..k])
      {
        var content := results[k].result.value.content;
        if |content| == 0 {
          var text := "(no output)";
          if results[k].result.value.error != "" {
            text := results[k].result.value.error;
          }
          content := [TextContent(text)];
        }
        blocks := blocks + [EmptyBlock.(kind := ToolResultKind, toolUseID := results[k].id, content := content,
                                        isError := results[k].result.value.isError)];
        assert results[..k + 1] == results[..k] + [results[k]];
      }
      assert results[..|results|] == results;
      m := Message(User, blocks);
    }

    /** One event per result, until one cannot be emitted. */
    method EmitResults(t: Turn) returns (failure: Option<Error>)
      ensures failure.None? <==> forall k :: 0 <= k < |t.results| ==> t.emitResult(k).None?
    {
      failure := None;
      for k := 0 to |t.results|
        invariant forall j :: 0 <= j < k ==> t.emitResult(j).None?
      {
        if t.emitResult(k).Some? {
          return t.emitResult(k);
        }
      }
    }

    /** The part of a turn after the answer of the model: charge, record, run the tools, record. */
    method UseAnswer(t: Turn, assembler: Assembler, model: string) returns (exit: Option<Exit>)
      requires assembler.Valid() && assembler.parse == cfg.parse && assembler.seen == Chosen(t).Events()
      requires model == UsedModel(cfg, t) && AllThere(t.results)
      modifies this`cost, this`messages, this`stopReason, this`denials
      ensures exit.None? || exit.value.Succeeded? || exit.value.AssistantNotEmitted? || exit.value.ToolsNotAdmitted?
              || exit.value.ResultNotEmitted?
      ensures exit.None? || exit.value.ResultNotEmitted? ==>
                && t.emitAssistant.None?
                && Budget.CheckAdmission(cfg.budget, t.beforeTools, old(cost) + ChargeOf(cfg, t)).Admitted?
                && messages == old(messages) + [AssistantOf(cfg, t), ResultsOf(t)]
                && cost == old(cost) + ChargeOf(cfg, t) + t.toolCharge
                && denials == old(denials) + DenialsOf(t.results)
                && SideList(cfg.parse, Chosen(t).Events()) != []
      ensures exit.Some? && !exit.value.ResultNotEmitted? ==>
                messages == old(messages) + [AssistantOf(cfg, t)] && cost == old(cost) + ChargeOf(cfg, t) && denials == old(denials)
      ensures exit.Some? && exit.value.AssistantNotEmitted? ==> t.emitAssistant == Some(exit.value.err)
      ensures exit == Some(Succeeded) <==> t.emitAssistant.None? && SideList(cfg.parse, Chosen(t).Events()) == []
      ensures exit.Some? && exit.value.ToolsNotAdmitted? ==>
                && SideList(cfg.parse, Chosen(t).Events()) != [] && !exit.value.why.Admitted?
                && exit.value.why == Budget.CheckAdmission(cfg.budget, t.beforeTools, cost)
      ensures stopReason == StopReasonOf(Chosen(t).Events())
    {
      if assembler.usage.Some? {
        cost := cost + Accounting.CalculateCost(model, assembler.usage.value);
      }
      stopReason := assembler.stopReason;
      AppendMessage(Message(Assistant, assembler.content));
      if t.emitAssistant.Some? {
        return Some(AssistantNotEmitted(t.emitAssistant.value));
      }
      if |assembler.toolUses| == 0 {
        return Some(Succeeded);
      }
      var admission := Budget.CheckAdmission(cfg.budget, t.beforeTools, cost);
      if !admission.Admitted? {
        return Some(ToolsNotAdmitted(admission));
      }
      cost := cost + t.toolCharge;
      CollectDenials(t.results);
      var toolResults := ToolResultMessage(t.results);
      AppendMessage(toolResults);
      var failure := EmitResults(t);
      exit := if failure.Some? then Some(ResultNotEmitted(failure.value)) else None;
    }

    /** How messages, cost and turn count stand at each way out. */
    ghost predicate Ended(env: Env, start: seq<Message>, cost0: real, exit: Exit)
      requires Executed(cfg, env)
      reads this
    {
      match exit
      case Succeeded =>
        AnswerRecorded(env, start, cost0) && !Asks(AssistantOf(cfg, env(numTurns)))
      case OutOfTurns => numTurns >= cfg.maxTurns && TurnsRecorded(env, start, cost0, numTurns)
      case NotAdmitted(why) =>
        && numTurns < cfg.maxTurns && TurnsRecorded(env, start, cost0, numTurns)
        && !why.Admitted? && why == Budget.CheckAdmission(cfg.budget, env(numTurns + 1).admission, cost)
      case StreamFailed(_, _) =>
        numTurns >= 1 && TurnsRecorded(env, start, cost0, numTurns - 1) && StreamExit(cfg, env(numTurns)) == Some(exit)
      case HookFailed(err) =>
        numTurns >= 1 && TurnsRecorded(env, start, cost0, numTurns - 1) && env(numTurns).postSampling == Some(err)
      case AssistantNotEmitted(err) =>
        AnswerRecorded(env, start, cost0) && env(numTurns).emitAssistant == Some(err)
      case ToolsNotAdmitted(why) =>
        && AnswerRecorded(env, start, cost0) && Asks(AssistantOf(cfg, env(numTurns)))
        && !why.Admitted? && why == Budget.CheckAdmission(cfg.budget, env(numTurns).beforeTools, cost)
      case ResultNotEmitted(_) => numTurns >= 1 && TurnsRecorded(env, start, cost0, numTurns)
    }

    /** n turns are recorded and paid for, and nothing else is. */
    ghost predicate TurnsRecorded(env: Env, start: seq<Message>, cost0: real, n: nat)
      requires Executed(cfg, env)
      reads this
    {
      && messages == History(cfg, env, start, n) && cost == CostAfter(cfg, env, cost0, n)
      && !CutShort(cfg, env, cost0, n)
    }

    /** All turns but the last are complete; of the last there is the assistant message and its charge. */
    ghost predicate AnswerRecorded(env: Env, start: seq<Message>, cost0: real)
      requires Executed(cfg, env)
      reads this
    {
      && numTurns >= 1 && Answered(cfg, env(numTurns))
      && messages == History(cfg, env, start, numTurns - 1) + [AssistantOf(cfg, env(numTurns))]
      && cost == CostAfter(cfg, env, cost0, numTurns - 1) + ChargeOf(cfg, env(numTurns))
    }

    /** The history of a request is paired, and the cost that this run read at its admission was below the
        limit. Runs that share the ledger may have charged it since. */
    ghost predicate FitToSend(s: Sent) {
      && Paired(s.messages)
      && (Budget.BudgetLimit(cfg.budget).Some? ==> s.cost < Budget.BudgetLimit(cfg.budget).value)
    }

    /** An admitted turn, from the request to the tool results. */
    method TakeTurn(env: Env, ghost start: seq<Message>, ghost cost0: real) returns (exit: Option<Exit>)
      requires Executed(cfg, env) && numTurns >= 1
      requires TurnsRecorded(env, start, cost0, numTurns - 1)
      modifies this`sent, this`cost, this`messages, this`stopReason, this`denials
      ensures exit.None? ==>
                TurnsRecorded(env, start, cost0, numTurns) && Asks(AssistantOf(cfg, env(numTurns)))
      ensures exit.Some? ==> Ended(env, start, cost0, exit.value)
      ensures sent == old(sent) + Requests(cfg, env(numTurns), Built(old(messages)), old(cost))
    {
      hide Paired, AnsweredBy, Built, ContentOf, SideList, Asks, ChargeOf, DenialsOf, AssistantOf, ResultsOf, StreamExit,
           Executed, AllThere, Normalized, UsageOf, StopReasonOf, ModelOf, FallsBack, Chosen, UsedModel, Uses;
      var t := env(numTurns);
      TurnAnswers(cfg, env, numTurns);
      var assembler, model, failure := AskModel(t);
      if failure.Some? {
        StreamExits(cfg, t);
        return failure;
      }
      if t.postSampling.Some? {
        return Some(HookFailed(t.postSampling.value));
      }
      exit := UseAnswer(t, assembler, model);
    }

    method RunLoop(env: Env, prompt: string) returns (exit: Exit)
      requires Executed(cfg, env) && Paired(messages) && numTurns == 0 && sent == []
      modifies this
      ensures Ended(env, old(messages) + [Prompt(prompt)], old(cost), exit)
      ensures numTurns > 0 ==> numTurns <= cfg.maxTurns
      ensures forall k :: 1 <= k < numTurns ==> Asks(AssistantOf(cfg, env(k)))
      ensures forall k :: 0 <= k < |sent| ==> FitToSend(sent[k])
    {
      hide Paired, AnsweredBy, Built, ContentOf, SideList, Asks, ChargeOf, DenialsOf, AssistantOf, ResultsOf, StreamExit,
           Executed, AllThere, FallsBack, Chosen;
      ghost var start := messages + [Prompt(prompt)];
      ghost var cost0 := cost;
      PromptIsQuiet(messages, prompt);
      AppendMessage(Message(User, [EmptyBlock.(text := prompt)]));
      var turn := 0;
      while turn < cfg.maxTurns
        invariant turn == numTurns && (turn > 0 ==> turn <= cfg.maxTurns)
        invariant TurnsRecorded(env, start, cost0, turn)
        invariant forall k :: 1 <= k <= turn ==> Asks(AssistantOf(cfg, env(k)))
        invariant forall k :: 0 <= k < |sent| ==> FitToSend(sent[k])
      {
        var admission := Budget.CheckAdmission(cfg.budget, env(turn + 1).admission, cost);
        if !admission.Admitted? {
          return NotAdmitted(admission);
        }
        turn := turn + 1;
        numTurns := turn;
        HistoryIsPaired(cfg, env, start, turn - 1);
        BuiltKeepsPairing(messages);
        assert forall model :: FitToSend(Sent(model, Built(messages), cost));
        var end := TakeTurn(env, start, cost0);
        if end.Some? {
          return end.value;
        }
      }
      exit := OutOfTurns;
    }
  }

  lemma StreamExits(c: Config, t: Turn)
    ensures StreamExit(c, t).Some? ==> StreamExit(c, t).value.StreamFailed?
  {
  }

  // ---------------------------------------------------------------------------
  // Main results about a run that has ended
  // ---------------------------------------------------------------------------

  /** A success after t turns has added 2t messages, counting the prompt; running out of turns 1 + 2 * maxTurns. */
  lemma HistoryGrowth(run: Run, env: Env, before: seq<Message>, prompt: string, cost0: real, exit: Exit)
    requires Executed(run.cfg, env) && run.Ended(env, before + [Prompt(prompt)], cost0, exit)
    requires run.numTurns > 0 ==> run.numTurns <= run.cfg.maxTurns
    ensures exit.Succeeded? ==> |run.messages| == |before| + 2 * run.numTurns
    ensures exit.OutOfTurns? && run.cfg.maxTurns >= 0 ==> |run.messages| == |before| + 1 + 2 * run.cfg.maxTurns
    ensures exit.NotAdmitted? || exit.ResultNotEmitted? ==> |run.messages| == |before| + 1 + 2 * run.numTurns
    ensures exit.StreamFailed? || exit.HookFailed? ==> |run.messages| == |before| + 2 * run.numTurns - 1
    ensures exit.AssistantNotEmitted? || exit.ToolsNotAdmitted? ==> |run.messages| == |before| + 2 * run.numTurns
  {
    HistoryGrowsByTwo(run.cfg, env, before + [Prompt(prompt)], run.numTurns);
    if run.numTurns > 0 {
      HistoryGrowsByTwo(run.cfg, env, before + [Prompt(prompt)], run.numTurns - 1);
    }
  }

  /** What a run leaves behind is paired, unless its last turn asked for tools and was cut short before
      their batch. */
  lemma PairedAtTheEndExactly(run: Run, env: Env, before: seq<Message>, prompt: string, cost0: real, exit: Exit)
    requires Executed(run.cfg, env) && run.Ended(env, before + [Prompt(prompt)], cost0, exit) && Paired(before)
    ensures Paired(run.messages) <==> !CutShort(run.cfg, env, cost0, run.numTurns)
  {
    hide Paired, Asks, ContentOf, ResultsOf, Executed, StreamExit, History, CostAfter, ChargeOf, Prompt;
    var start := before + [Prompt(prompt)];
    PromptIsQuiet(before, prompt);
    HistoryIsPaired(run.cfg, env, start, run.numTurns);
    if run.numTurns > 0 {
      HistoryIsPaired(run.cfg, env, start, run.numTurns - 1);
      PairedTailExactly(History(run.cfg, env, start, run.numTurns - 1), AssistantOf(run.cfg, env(run.numTurns)));
    }
  }
}
