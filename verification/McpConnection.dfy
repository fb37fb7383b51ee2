/** One MCP stdio connection (mcp/client.go): the one-slot gate, poisoning on cancel, and the wait group
    that closing joins. JSON-RPC 2.0 (section 5, Response object) pairs a reply with its request by id.
    This client never looks at the id of a reply, so the order of the lines has to do it. */
module McpConnection {
  import opened Types

  /** A line from the server: the reply to request id, or anything else. */
  datatype Line = ReplyTo(id: nat) | Unsolicited

  /** at: how many lines had been read before this one. */
  datatype Result = Got(line: Line, at: nat) | NoReply

  /** Where a request stands. Its JSON-RPC id is known from the exchange on. */
  datatype Request =
    | Waiting
    | Holding
    | Cleared
    | Exchanging(id: nat)
    | Joining(id: nat)
    | Leaving(id: nat, result: Result)
    | Returned(id: nat, result: Result)

  datatype Phase = Writing | Reading | GotLine(line: Line, at: nat) | GotError

  /** The I/O goroutine of the exchange in progress. */
  datatype Worker = Worker(owner: nat, id: nat, phase: Phase)

  /** wire are the request ids written, lines the lines produced by the server, consumed the number of
      lines read. Once a write has failed no write succeeds any more, and once a read has failed no read. */
  datatype State = State(requests: map<nat, Request>, gate: Option<nat>, worker: Option<Worker>,
                         closing: bool, closeReturned: bool, nextID: nat,
                         wire: seq<nat>, answered: nat, lines: seq<Line>, consumed: nat,
                         writeFailed: bool, readFailures: nat)

  /** A request on its way to the gate and away from it. */
  datatype GateMove =
    | Enter(r: nat)
    | StopWaiting(r: nat)
    | TakeGate(r: nat)
    | GiveUpGate(r: nat)
    | FindOpen(r: nat)
    | EncodingFails(r: nat)
    | StartWorker(r: nat)
    | Depart(r: nat)

  /** The exchange of the request inside the gate, and its I/O goroutine. */
  datatype ExchangeMove =
    | WorkerWrites
    | WorkerWriteFails
    | WorkerReads
    | WorkerReadFails
    | TakeResult(r: nat, parsed: bool)
    | ContextDone(r: nat)
    | SeeClosed(r: nat)
    | JoinWorker(r: nat)

  /** closeTransport, closeAndWait and the server. */
  datatype OtherMove =
    | CloseTransport
    | CloseReturns
    | ServerAnswers
    | ServerSpeaks

  datatype Step = OfGate(gate: GateMove) | OfExchange(exchange: ExchangeMove) | OfOther(other: OtherMove)

  predicate AllReturned(s: State) {
    forall r :: r in s.requests ==> s.requests[r].Returned?
  }

  predicate WorkerDone(s: State) {
    s.worker.Some? && (s.worker.value.phase.GotLine? || s.worker.value.phase.GotError?)
  }

  predicate GateCan(s: State, m: GateMove) {
    match m
    case Enter(r) => r !in s.requests && !s.closing
    case StopWaiting(r) => r in s.requests && s.requests[r].Waiting?
    case TakeGate(r) => r in s.requests && s.requests[r].Waiting? && s.gate.None?
    case GiveUpGate(r) => r in s.requests && s.requests[r].Holding?
    case FindOpen(r) => r in s.requests && s.requests[r].Holding? && !s.closing
    case EncodingFails(r) => r in s.requests && s.requests[r].Cleared?
    case StartWorker(r) => r in s.requests && s.requests[r].Cleared?
    case Depart(r) => r in s.requests && s.requests[r].Leaving?
  }

  predicate ExchangeCan(s: State, m: ExchangeMove) {
    match m
    case WorkerWrites => s.worker.Some? && s.worker.value.phase.Writing? && !s.writeFailed
    case WorkerWriteFails => s.worker.Some? && s.worker.value.phase.Writing?
    case WorkerReads => s.worker.Some? && s.worker.value.phase.Reading? && s.readFailures == 0 && s.consumed < |s.lines|
    case WorkerReadFails => s.worker.Some? && s.worker.value.phase.Reading?
    case TakeResult(r, _) => r in s.requests && s.requests[r].Exchanging? && WorkerDone(s)
    case ContextDone(r) => r in s.requests && s.requests[r].Exchanging?
    case SeeClosed(r) => r in s.requests && s.requests[r].Exchanging? && s.closing
    case JoinWorker(r) => r in s.requests && s.requests[r].Joining? && WorkerDone(s)
  }

  /** chatty: may the server send lines that are not replies? */
  predicate OtherCan(chatty: bool, s: State, m: OtherMove) {
    match m
    case CloseTransport => true
    case CloseReturns => s.closing && AllReturned(s)
    case ServerAnswers => s.answered < |s.wire|
    case ServerSpeaks => chatty
  }

  function Phased(s: State, p: Phase): State
    requires s.worker.Some?
  {
    s.(worker := Some(s.worker.value.(phase := p)))
  }

  function GateDoes(s: State, m: GateMove): State
    requires GateCan(s, m)
  {
    match m
    case Enter(r) => s.(requests := s.requests[r := Waiting])
    case StopWaiting(r) => s.(requests := s.requests[r := Leaving(0, NoReply)])
    case TakeGate(r) => s.(requests := s.requests[r := Holding], gate := Some(r))
    case GiveUpGate(r) => s.(requests := s.requests[r := Leaving(0, NoReply)], gate := None)
    case FindOpen(r) => s.(requests := s.requests[r := Cleared])
    case EncodingFails(r) =>
      s.(requests := s.requests[r := Leaving(s.nextID + 1, NoReply)], nextID := s.nextID + 1, gate := None)
    case StartWorker(r) =>
      s.(requests := s.requests[r := Exchanging(s.nextID + 1)], nextID := s.nextID + 1,
         worker := Some(Worker(r, s.nextID + 1, Writing)))
    case Depart(r) => s.(requests := s.requests[r := Returned(s.requests[r].id, s.requests[r].result)])
  }

  function ExchangeDoes(s: State, m: ExchangeMove): State
    requires ExchangeCan(s, m)
  {
    match m
    case WorkerWrites => Phased(s, Reading).(wire := s.wire + [s.worker.value.id])
    case WorkerWriteFails => Phased(s, GotError).(writeFailed := true)
    case WorkerReads => Phased(s, GotLine(s.lines[s.consumed], s.consumed)).(consumed := s.consumed + 1)
    case WorkerReadFails => Phased(s, GotError).(readFailures := s.readFailures + 1)
    case TakeResult(r, parsed) =>
      var p := s.worker.value.phase;
      var result := if p.GotLine? && parsed then Got(p.line, p.at) else NoReply;
      s.(requests := s.requests[r := Leaving(s.requests[r].id, result)], worker := None, gate := None)
    case ContextDone(r) => s.(requests := s.requests[r := Joining(s.requests[r].id)], closing := true)
    case SeeClosed(r) => s.(requests := s.requests[r := Joining(s.requests[r].id)])
    case JoinWorker(r) =>
      s.(requests := s.requests[r := Leaving(s.requests[r].id, NoReply)], worker := None, gate := None)
  }

  function OtherDoes(chatty: bool, s: State, m: OtherMove): State
    requires OtherCan(chatty, s, m)
  {
    match m
    case CloseTransport => s.(closing := true)
    case CloseReturns => s.(closeReturned := true)
    case ServerAnswers => s.(lines := s.lines + [ReplyTo(s.wire[s.answered])], answered := s.answered + 1)
    case ServerSpeaks => s.(lines := s.lines + [Unsolicited])
  }

  predicate Enabled(chatty: bool, s: State, step: Step) {
    match step
    case OfGate(m) => GateCan(s, m)
    case OfExchange(m) => ExchangeCan(s, m)
    case OfOther(m) => OtherCan(chatty, s, m)
  }

  function Apply(chatty: bool, s: State, step: Step): State
    requires Enabled(chatty, s, step)
  {
    match step
    case OfGate(m) => GateDoes(s, m)
    case OfExchange(m) => ExchangeDoes(s, m)
    case OfOther(m) => OtherDoes(chatty, s, m)
  }

  const Start := State(map[], None, None, false, false, 0, [], 0, [], 0, false, 0)

  ghost predicate Next(chatty: bool, s: State, t: State) {
    exists step :: Enabled(chatty, s, step) && t == Apply(chatty, s, step)
  }

  ghost predicate Execution(chatty: bool, run: seq<State>) {
    && |run| > 0 && run[0] == Start
    && forall k :: 0 <= k < |run| - 1 ==> Next(chatty, run[k], run[k + 1])
  }

  // ---------------------------------------------------------------------------
  // The invariant
  // ---------------------------------------------------------------------------

  predicate InsideGate(q: Request) {
    q.Holding? || q.Cleared? || q.Exchanging? || q.Joining?
  }

  /** The gate names the one request inside it; a worker exists exactly during an exchange. */
  ghost predicate Gate(s: State) {
    && (forall r :: r in s.requests && InsideGate(s.requests[r]) ==> s.gate == Some(r))
    && (s.gate.Some? ==> s.gate.value in s.requests && InsideGate(s.requests[s.gate.value]))
    && (s.worker.Some? <==> s.gate.Some? && (s.requests[s.gate.value].Exchanging? || s.requests[s.gate.value].Joining?))
    && (s.worker.Some? ==> s.worker.value.owner == s.gate.value && s.worker.value.id == s.requests[s.gate.value].id)
  }

  /** Requests written, replies read and failed reads balance, whatever the server sends. */
  ghost predicate Balance(s: State) {
    && s.consumed <= |s.lines|
    && if s.worker.Some? && s.worker.value.phase.Reading?
       then |s.wire| == s.consumed + s.readFailures + 1 && s.wire[|s.wire| - 1] == s.worker.value.id
       else |s.wire| == s.consumed + s.readFailures
  }

  function Replies(lines: seq<Line>): nat {
    if lines == [] then 0 else Replies(lines[..|lines| - 1]) + if lines[|lines| - 1].ReplyTo? then 1 else 0
  }

  /** The server answers the requests in the order of the wire, and a silent one sends nothing else. */
  ghost predicate InOrder(chatty: bool, s: State) {
    && Answering(s.lines, s.answered, s.wire)
    && (!chatty ==> forall k :: 0 <= k < |s.lines| ==> s.lines[k].ReplyTo?)
  }

  /** A line was read at the place of the wire at which the request of its reader was written. */
  predicate ReadAt(s: State, line: Line, at: nat, id: nat) {
    at < s.consumed <= |s.lines| && at < |s.wire| && line == s.lines[at] && s.wire[at] == id
  }

  ghost predicate Places(s: State) {
    && (s.worker.Some? && s.worker.value.phase.GotLine? ==>
          ReadAt(s, s.worker.value.phase.line, s.worker.value.phase.at, s.worker.value.id))
    && (forall r :: r in s.requests && (s.requests[r].Leaving? || s.requests[r].Returned?) && s.requests[r].result.Got? ==>
          ReadAt(s, s.requests[r].result.line, s.requests[r].result.at, s.requests[r].id))
  }

  /** Ids are handed out once each, in the order in which they reach the wire. */
  ghost predicate FreshIds(s: State) {
    && (forall k :: 0 <= k < |s.wire| ==> 1 <= s.wire[k] <= s.nextID)
    && (forall j, k :: 0 <= j < k < |s.wire| ==> s.wire[j] < s.wire[k])
    && (s.worker.Some? ==> s.worker.value.id == s.nextID >= 1)
    && (s.worker.Some? && s.worker.value.phase.Writing? ==> forall k :: 0 <= k < |s.wire| ==> s.wire[k] < s.nextID)
  }

  ghost predicate Closure(s: State) {
    s.closeReturned ==> s.closing && AllReturned(s)
  }

  ghost predicate Inv(chatty: bool, s: State) {
    Gate(s) && Balance(s) && InOrder(chatty, s) && Places(s) && FreshIds(s) && Closure(s)
  }

  lemma GateKeepsGate(s: State, m: GateMove)
    requires GateCan(s, m) && Gate(s)
    ensures Gate(GateDoes(s, m))
  {
  }

  lemma ExchangeKeepsGate(s: State, m: ExchangeMove)
    requires ExchangeCan(s, m) && Gate(s)
    ensures Gate(ExchangeDoes(s, m))
  {
  }

  lemma GateKeepsBalance(s: State, m: GateMove)
    requires GateCan(s, m) && Gate(s) && Balance(s)
    ensures Balance(GateDoes(s, m))
  {
  }

  lemma ExchangeKeepsBalance(s: State, m: ExchangeMove)
    requires ExchangeCan(s, m) && Gate(s) && Balance(s)
    ensures Balance(ExchangeDoes(s, m))
  {
  }

  lemma GateKeepsFreshIds(s: State, m: GateMove)
    requires GateCan(s, m) && Gate(s) && FreshIds(s)
    ensures FreshIds(GateDoes(s, m))
  {
  }

  lemma ExchangeKeepsFreshIds(s: State, m: ExchangeMove)
    requires ExchangeCan(s, m) && Gate(s) && FreshIds(s)
    ensures FreshIds(ExchangeDoes(s, m))
  {
  }

  /** Closing and the server leave requests, gate, worker and wire alone, and the server only adds lines. */
  lemma OtherLeaves(chatty: bool, s: State, m: OtherMove)
    requires OtherCan(chatty, s, m)
    ensures var t := OtherDoes(chatty, s, m);
            && t.requests == s.requests && t.gate == s.gate && t.worker == s.worker && t.nextID == s.nextID && t.wire == s.wire
            && t.consumed == s.consumed && t.readFailures == s.readFailures && s.lines <= t.lines && (s.closing ==> t.closing)
  {
  }

  /** The lines answer the wire in order. */
  ghost predicate Answering(lines: seq<Line>, answered: nat, wire: seq<nat>) {
    && Replies(lines) == answered <= |wire|
    && forall k :: 0 <= k < |lines| && lines[k].ReplyTo? ==>
         Replies(lines[..k]) < answered && lines[k] == ReplyTo(wire[Replies(lines[..k])])
  }

  lemma AnsweringMore(lines: seq<Line>, answered: nat, wire: seq<nat>, l: Line)
    requires Answering(lines, answered, wire)
    requires l.ReplyTo? ==> answered < |wire| && l == ReplyTo(wire[answered])
    ensures Answering(lines + [l], if l.ReplyTo? then answered + 1 else answered, wire)
  {
    var more := lines + [l];
    assert more[..|lines|] == lines;
    forall k | 0 <= k < |more| && more[k].ReplyTo?
      ensures Replies(more[..k]) < Replies(more) && more[k] == ReplyTo(wire[Replies(more[..k])])
    {
      if k < |lines| {
        assert more[..k] == lines[..k] && more[k] == lines[k];
      }
    }
  }

  lemma OtherKeepsInOrder(chatty: bool, s: State, m: OtherMove)
    requires OtherCan(chatty, s, m) && InOrder(chatty, s)
    ensures InOrder(chatty, OtherDoes(chatty, s, m))
  {
    hide Answering;
    if m.ServerAnswers? {
      AnsweringInRange(s.lines, s.answered, s.wire);
      AnsweringMore(s.lines, s.answered, s.wire, ReplyTo(s.wire[s.answered]));
    } else if m.ServerSpeaks? {
      AnsweringMore(s.lines, s.answered, s.wire, Unsolicited);
    }
  }

  lemma AnsweringInRange(lines: seq<Line>, answered: nat, wire: seq<nat>)
    requires Answering(lines, answered, wire)
    ensures answered <= |wire|
  {
  }

  /** Other moves read lines and add to the wire; they touch neither lines nor answers. */
  lemma GateGrows(s: State, m: GateMove)
    requires GateCan(s, m) && s.consumed <= |s.lines|
    ensures Grows(s, GateDoes(s, m))
  {
  }

  lemma ExchangeGrows(s: State, m: ExchangeMove)
    requires ExchangeCan(s, m) && s.consumed <= |s.lines|
    ensures Grows(s, ExchangeDoes(s, m))
  {
  }

  ghost predicate Grows(s: State, t: State) {
    t.lines == s.lines && t.answered == s.answered && s.wire <= t.wire && s.consumed <= t.consumed <= |t.lines|
  }

  lemma StillInOrder(chatty: bool, s: State, t: State)
    requires InOrder(chatty, s) && Grows(s, t)
    ensures InOrder(chatty, t)
  {
    hide Replies;
  }

  lemma StillReadAt(s: State, t: State, line: Line, at: nat, id: nat)
    requires ReadAt(s, line, at, id) && s.lines <= t.lines && s.wire <= t.wire && s.consumed <= t.consumed <= |t.lines|
    ensures ReadAt(t, line, at, id)
  {
  }

  /** Results come from the worker's line, or were there before. */
  ghost predicate ResultsFrom(s: State, t: State) {
    forall r :: r in t.requests && (t.requests[r].Leaving? || t.requests[r].Returned?) && t.requests[r].result.Got? ==>
      || (s.worker.Some? && s.worker.value.phase.GotLine? && t.requests[r].id == s.worker.value.id
          && t.requests[r].result == Got(s.worker.value.phase.line, s.worker.value.phase.at))
      || (r in s.requests && (s.requests[r].Leaving? || s.requests[r].Returned?)
          && s.requests[r].result == t.requests[r].result && s.requests[r].id == t.requests[r].id)
  }

  /** A worker's new line is the one at the place of its request. */
  ghost predicate WorkerReadsAt(s: State, t: State) {
    t.worker.Some? && t.worker.value.phase.GotLine? && t.worker != s.worker ==>
      ReadAt(t, t.worker.value.phase.line, t.worker.value.phase.at, t.worker.value.id)
  }

  lemma GatePlaces(s: State, m: GateMove)
    requires GateCan(s, m)
    ensures ResultsFrom(s, GateDoes(s, m)) && WorkerReadsAt(s, GateDoes(s, m))
  {
  }

  lemma ExchangeResults(s: State, m: ExchangeMove)
    requires ExchangeCan(s, m) && Gate(s)
    ensures ResultsFrom(s, ExchangeDoes(s, m))
  {
  }

  lemma ExchangeReadsAt(s: State, m: ExchangeMove)
    requires ExchangeCan(s, m) && Balance(s)
    ensures WorkerReadsAt(s, ExchangeDoes(s, m))
  {
  }

  lemma ExchangePlaces(s: State, m: ExchangeMove)
    requires ExchangeCan(s, m) && Gate(s) && Balance(s)
    ensures ResultsFrom(s, ExchangeDoes(s, m)) && WorkerReadsAt(s, ExchangeDoes(s, m))
  {
    hide *;
    ExchangeResults(s, m);
    ExchangeReadsAt(s, m);
  }

  lemma StillPlaces(s: State, t: State)
    requires Places(s) && ResultsFrom(s, t) && WorkerReadsAt(s, t)
    requires s.lines <= t.lines && s.wire <= t.wire && s.consumed <= t.consumed <= |t.lines|
    ensures Places(t)
  {
    hide ReadAt;
    forall line, at, id | ReadAt(s, line, at, id) ensures ReadAt(t, line, at, id) {
      StillReadAt(s, t, line, at, id);
    }
  }

  lemma ConsumedInRange(s: State)
    requires Balance(s)
    ensures s.consumed <= |s.lines|
  {
  }

  /** Every step keeps all six. */
  lemma KeepsInv(chatty: bool, s: State, step: Step)
    requires Enabled(chatty, s, step) && Inv(chatty, s)
    ensures Inv(chatty, Apply(chatty, s, step))
  {
    hide GateCan, GateDoes, ExchangeCan, ExchangeDoes, OtherCan, OtherDoes, Gate, Balance, InOrder, Places, FreshIds, Closure, Grows;
    var t := Apply(chatty, s, step);
    KeepsClosure(chatty, s, step);
    ConsumedInRange(s);
    match step {
      case OfGate(m) =>
        GateKeepsGate(s, m);
        GateKeepsBalance(s, m);
        GateKeepsFreshIds(s, m);
        GateGrows(s, m);
        GatePlaces(s, m);
        GrowsOn(chatty, s, t);
      case OfExchange(m) =>
        ExchangeKeepsGate(s, m);
        ExchangeKeepsBalance(s, m);
        ExchangeKeepsFreshIds(s, m);
        ExchangeGrows(s, m);
        ExchangePlaces(s, m);
        GrowsOn(chatty, s, t);
      case OfOther(m) =>
        OtherLeaves(chatty, s, m);
        OtherKeepsInOrder(chatty, s, m);
        LeftAlone(s, t);
    }
  }

  lemma GrowsOn(chatty: bool, s: State, t: State)
    requires Grows(s, t) && InOrder(chatty, s) && Places(s) && ResultsFrom(s, t) && WorkerReadsAt(s, t)
    ensures InOrder(chatty, t) && Places(t)
  {
    hide InOrder, Places, ResultsFrom, WorkerReadsAt;
    StillInOrder(chatty, s, t);
    StillPlaces(s, t);
  }

  lemma LeftAlone(s: State, t: State)
    requires Gate(s) && Balance(s) && FreshIds(s) && Places(s)
    requires t.requests == s.requests && t.gate == s.gate && t.worker == s.worker && t.nextID == s.nextID && t.wire == s.wire
    requires t.consumed == s.consumed && t.readFailures == s.readFailures && s.lines <= t.lines
    ensures Gate(t) && Balance(t) && FreshIds(t) && Places(t)
  {
    StillPlaces(s, t);
  }

  lemma KeepsClosure(chatty: bool, s: State, step: Step)
    requires Enabled(chatty, s, step) && Gate(s) && Closure(s)
    ensures Closure(Apply(chatty, s, step))
  {
    hide Gate;
    match step {
      case OfGate(m) => hide ExchangeCan, ExchangeDoes;
      case OfExchange(m) => hide GateCan, GateDoes;
      case OfOther(m) => hide GateCan, GateDoes, ExchangeCan, ExchangeDoes;
    }
  }

  lemma {:induction false} Reachable(chatty: bool, run: seq<State>, n: nat)
    requires Execution(chatty, run) && n < |run|
    ensures Inv(chatty, run[n])
  {
    hide Enabled, Apply, Inv;
    if n == 0 {
      StartInv(chatty);
    } else {
      Reachable(chatty, run, n - 1);
      assert Next(chatty, run[n - 1], run[n - 1 + 1]);
      var step :| Enabled(chatty, run[n - 1], step) && run[n] == Apply(chatty, run[n - 1], step);
      KeepsInv(chatty, run[n - 1], step);
    }
  }

  lemma StartInv(chatty: bool)
    ensures Inv(chatty, Start)
  {
  }

  // ---------------------------------------------------------------------------
  // Main results
  // ---------------------------------------------------------------------------

  /** As many replies as lines means that every line is a reply. */
  lemma {:induction false} RepliesAreLines(lines: seq<Line>)
    ensures Replies(lines) <= |lines|
    ensures Replies(lines) == |lines| <==> forall k :: 0 <= k < |lines| ==> lines[k] != Unsolicited
  {
    if lines != [] {
      var before := lines[..|lines| - 1];
      RepliesAreLines(before);
      assert forall k :: 0 <= k < |before| ==> before[k] == lines[k];
    }
  }

  /** Whatever the server sends, and whatever is cancelled, closed or fails: the line that a caller gets is
      the reply to its own request if and only if the server has sent nothing of its own up to that line. */
  lemma OwnReplyExactly(chatty: bool, run: seq<State>, n: nat, r: nat)
    requires Execution(chatty, run) && n < |run| && r in run[n].requests
    requires run[n].requests[r].Returned? && run[n].requests[r].result.Got?
    ensures run[n].requests[r].result.at < |run[n].lines|
    ensures run[n].requests[r].result.line == ReplyTo(run[n].requests[r].id)
       <==> forall k :: 0 <= k <= run[n].requests[r].result.at ==> run[n].lines[k] != Unsolicited
  {
    hide Enabled, Apply, Gate, Balance, Closure, Replies;
    Reachable(chatty, run, n);
    var s := run[n];
    var at := s.requests[r].result.at;
    assert ReadAt(s, s.requests[r].result.line, at, s.requests[r].id);
    RepliesAreLines(s.lines[..at]);
    assert forall k :: 0 <= k < at ==> s.lines[..at][k] == s.lines[k];
    var place := Replies(s.lines[..at]);
    if s.lines[at].ReplyTo? && place < at {
      assert s.wire[place] < s.wire[at];
    }
  }

  /** With a server that answers every request with one line, in order, and sends nothing else: whoever
      gets a reply gets the reply to its own request, whatever is cancelled, closed or fails meanwhile. */
  lemma NoCrossWiring(run: seq<State>, n: nat, r: nat)
    requires Execution(false, run) && n < |run| && r in run[n].requests
    requires run[n].requests[r].Returned? && run[n].requests[r].result.Got?
    ensures run[n].requests[r].result.line == ReplyTo(run[n].requests[r].id)
  {
    hide Enabled, Apply, Gate, Balance, Closure, Replies, Places, FreshIds;
    Reachable(false, run, n);
    OwnReplyExactly(false, run, n, r);
  }

  /** In every execution, whenever the gate is free: requests written are replies read and failed reads
      together. So they equal the replies read if and only if no read has failed; a failed write does not
      matter. Requests are written one at a time, each under an id of its own. */
  lemma GateFreeMeansBalanced(chatty: bool, run: seq<State>, n: nat)
    requires Execution(chatty, run) && n < |run| && run[n].gate.None?
    ensures |run[n].wire| == run[n].consumed + run[n].readFailures
    ensures |run[n].wire| == run[n].consumed <==> run[n].readFailures == 0
    ensures run[n].worker.None?
    ensures forall j, k :: 0 <= j < k < |run[n].wire| ==> run[n].wire[j] != run[n].wire[k]
    ensures !chatty && run[n].readFailures == 0 ==> |run[n].lines| == run[n].consumed
  {
    hide Enabled, Apply, Replies;
    Reachable(chatty, run, n);
    RepliesAreLines(run[n].lines);
  }

  /** After closeAndWait has returned no request is active, and none becomes active ever after. */
  lemma {:induction false} ClosedForGood(chatty: bool, run: seq<State>, n: nat, m: nat)
    requires Execution(chatty, run) && n <= m < |run| && run[n].closeReturned
    ensures run[m].closing && AllReturned(run[m]) && run[m].requests == run[n].requests
    decreases m - n
  {
    hide Enabled, Apply, Gate, Balance, InOrder, Places, FreshIds;
    Reachable(chatty, run, n);
    if n < m {
      ClosedForGood(chatty, run, n, m - 1);
      assert Next(chatty, run[m - 1], run[m - 1 + 1]);
      Reachable(chatty, run, m - 1);
      var step :| Enabled(chatty, run[m - 1], step) && run[m] == Apply(chatty, run[m - 1], step);
      ClosedStep(chatty, run[m - 1], step);
    }
  }

  lemma ClosedStep(chatty: bool, s: State, step: Step)
    requires Enabled(chatty, s, step) && Gate(s) && s.closing && AllReturned(s)
    ensures var t := Apply(chatty, s, step); t.closing && t.requests == s.requests
  {
  }

  predicate Left(s: State, r: nat, result: Result) {
    r in s.requests && s.requests[r].Leaving? && s.requests[r].result == result
  }

  /** How an exchange can end: with a line exactly if its worker has read that line, and with an error exactly
      if its worker is done, because any line may turn out not to be a response. */
  lemma ExchangeEndsExactly(chatty: bool, run: seq<State>, n: nat, r: nat, line: Line, at: nat)
    requires Execution(chatty, run) && n < |run| && r in run[n].requests && run[n].requests[r].Exchanging?
    ensures run[n].worker.Some? && run[n].worker.value.owner == r
    ensures (exists t :: Next(chatty, run[n], t) && Left(t, r, Got(line, at)))
       <==> run[n].worker.value.phase == GotLine(line, at)
    ensures (exists t :: Next(chatty, run[n], t) && Left(t, r, NoReply))
       <==> run[n].worker.value.phase.GotLine? || run[n].worker.value.phase.GotError?
  {
    Reachable(chatty, run, n);
    var s := run[n];
    InvHasGate(chatty, s);
    hide Inv, Execution;
    forall t, result | Next(chatty, s, t) && Left(t, r, result)
      ensures WorkerDone(s) && (result == NoReply || s.worker.value.phase == GotLine(result.line, result.at))
    {
      var step :| Enabled(chatty, s, step) && t == Apply(chatty, s, step);
      LeavesByResult(chatty, s, step, r);
    }
    if WorkerDone(s) {
      CanTake(chatty, s, r, true);
      CanTake(chatty, s, r, false);
    }
  }

  lemma CanTake(chatty: bool, s: State, r: nat, parsed: bool)
    requires r in s.requests && s.requests[r].Exchanging? && WorkerDone(s)
    ensures var p := s.worker.value.phase;
            exists t :: Next(chatty, s, t) && Left(t, r, if p.GotLine? && parsed then Got(p.line, p.at) else NoReply)
  {
    var step := OfExchange(TakeResult(r, parsed));
    assert Enabled(chatty, s, step);
    assert Next(chatty, s, Apply(chatty, s, step));
  }

  predicate EndsBy(s: State, t: State, r: nat) {
    r in t.requests && t.requests[r].Leaving? ==>
      && WorkerDone(s)
      && (t.requests[r].result == NoReply
          || s.worker.value.phase == GotLine(t.requests[r].result.line, t.requests[r].result.at))
  }

  lemma GateEnds(s: State, m: GateMove, r: nat)
    requires GateCan(s, m) && r in s.requests && s.requests[r].Exchanging?
    ensures EndsBy(s, GateDoes(s, m), r)
  {
  }

  lemma ExchangeEnds(s: State, m: ExchangeMove, r: nat)
    requires ExchangeCan(s, m) && r in s.requests && s.requests[r].Exchanging?
    ensures EndsBy(s, ExchangeDoes(s, m), r)
  {
  }

  lemma LeavesByResult(chatty: bool, s: State, step: Step, r: nat)
    requires Enabled(chatty, s, step) && r in s.requests && s.requests[r].Exchanging?
    ensures EndsBy(s, Apply(chatty, s, step), r)
  {
    hide GateCan, GateDoes, ExchangeCan, ExchangeDoes, OtherCan, OtherDoes;
    match step {
      case OfGate(m) => GateEnds(s, m, r);
      case OfExchange(m) => ExchangeEnds(s, m, r);
      case OfOther(m) => OtherLeaves(chatty, s, m);
    }
  }

  // ---------------------------------------------------------------------------
  // Poisoning on cancel
  // ---------------------------------------------------------------------------

  /** Nobody joins an exchange of an open connection. */
  ghost predicate JoinsWhenClosing(s: State) {
    forall r :: r in s.requests && s.requests[r].Joining? ==> s.closing
  }

  lemma GateJoinsWhenClosing(s: State, m: GateMove)
    requires GateCan(s, m) && JoinsWhenClosing(s)
    ensures JoinsWhenClosing(GateDoes(s, m))
  {
  }

  lemma ExchangeJoinsWhenClosing(s: State, m: ExchangeMove)
    requires ExchangeCan(s, m) && JoinsWhenClosing(s)
    ensures JoinsWhenClosing(ExchangeDoes(s, m))
  {
  }

  lemma StepJoinsWhenClosing(chatty: bool, s: State, step: Step)
    requires Enabled(chatty, s, step) && JoinsWhenClosing(s)
    ensures JoinsWhenClosing(Apply(chatty, s, step))
  {
    hide GateCan, GateDoes, ExchangeCan, ExchangeDoes, OtherCan, OtherDoes;
    match step {
      case OfGate(m) => GateJoinsWhenClosing(s, m);
      case OfExchange(m) => ExchangeJoinsWhenClosing(s, m);
      case OfOther(m) => OtherLeaves(chatty, s, m);
    }
  }

  lemma {:induction false} JoiningIsClosing(chatty: bool, run: seq<State>, n: nat)
    requires Execution(chatty, run) && n < |run|
    ensures JoinsWhenClosing(run[n])
  {
    hide Enabled, Apply;
    if n > 0 {
      JoiningIsClosing(chatty, run, n - 1);
      assert Next(chatty, run[n - 1], run[n - 1 + 1]);
      var step :| Enabled(chatty, run[n - 1], step) && run[n] == Apply(chatty, run[n - 1], step);
      StepJoinsWhenClosing(chatty, run[n - 1], step);
    }
  }

  /** The connection as request r leaves it behind: closing, with no other request that may still write. */
  ghost predicate Poisoned(s: State, r: nat, id: nat, requests: set<nat>, wire: seq<nat>) {
    && s.closing && s.requests.Keys == requests && r in s.requests
    && s.requests[r] in {Request.Joining(id), Request.Leaving(id, NoReply), Request.Returned(id, NoReply)}
    && (forall q :: q in s.requests && q != r ==>
          !s.requests[q].Cleared? && !s.requests[q].Exchanging? && !s.requests[q].Joining?)
    && (s.worker.Some? ==> s.worker.value.id == id)
    && wire <= s.wire && forall k :: |wire| <= k < |s.wire| ==> s.wire[k] == id
  }

  lemma PoisonBegins(s: State, r: nat)
    requires Gate(s) && JoinsWhenClosing(s) && r in s.requests && s.requests[r].Joining?
    ensures Poisoned(s, r, s.requests[r].id, s.requests.Keys, s.wire)
  {
  }

  lemma GateKeepsPoison(s: State, m: GateMove, r: nat, id: nat, requests: set<nat>, wire: seq<nat>)
    requires GateCan(s, m) && Poisoned(s, r, id, requests, wire)
    ensures Poisoned(GateDoes(s, m), r, id, requests, wire)
  {
    assert GateDoes(s, m).requests.Keys == s.requests.Keys;
  }

  lemma ExchangeKeepsPoison(s: State, m: ExchangeMove, r: nat, id: nat, requests: set<nat>, wire: seq<nat>)
    requires ExchangeCan(s, m) && Poisoned(s, r, id, requests, wire)
    ensures Poisoned(ExchangeDoes(s, m), r, id, requests, wire)
  {
    assert ExchangeDoes(s, m).requests.Keys == s.requests.Keys;
  }

  lemma OtherKeepsPoison(chatty: bool, s: State, m: OtherMove, r: nat, id: nat, requests: set<nat>, wire: seq<nat>)
    requires OtherCan(chatty, s, m) && Poisoned(s, r, id, requests, wire)
    ensures Poisoned(OtherDoes(chatty, s, m), r, id, requests, wire)
  {
    OtherLeaves(chatty, s, m);
  }

  lemma {:induction false} StaysPoisoned(chatty: bool, run: seq<State>, n: nat, m: nat, r: nat)
    requires Execution(chatty, run) && n <= m < |run| && r in run[n].requests && run[n].requests[r].Joining?
    ensures Poisoned(run[m], r, run[n].requests[r].id, run[n].requests.Keys, run[n].wire)
    decreases m - n
  {
    hide Inv, Poisoned, JoinsWhenClosing, GateCan, GateDoes, ExchangeCan, ExchangeDoes, OtherCan, OtherDoes;
    if n == m {
      Reachable(chatty, run, n);
      JoiningIsClosing(chatty, run, n);
      InvHasGate(chatty, run[n]);
      PoisonBegins(run[n], r);
    } else {
      StaysPoisoned(chatty, run, n, m - 1, r);
      assert Next(chatty, run[m - 1], run[m - 1 + 1]);
      var step :| Enabled(chatty, run[m - 1], step) && run[m] == Apply(chatty, run[m - 1], step);
      var id, requests, wire := run[n].requests[r].id, run[n].requests.Keys, run[n].wire;
      match step {
        case OfGate(m') => GateKeepsPoison(run[m - 1], m', r, id, requests, wire);
        case OfExchange(m') => ExchangeKeepsPoison(run[m - 1], m', r, id, requests, wire);
        case OfOther(m') => OtherKeepsPoison(chatty, run[m - 1], m', r, id, requests, wire);
      }
    }
  }

  lemma InvHasGate(chatty: bool, s: State)
    requires Inv(chatty, s)
    ensures Gate(s)
  {
  }

  /** A request that is cancelled or sees the connection closed during its exchange poisons the connection:
      from then on it is closing, no request is admitted any more, nothing but its own id can still reach
      the wire, and it gets no reply itself. */
  lemma CancelPoisons(chatty: bool, run: seq<State>, n: nat, m: nat, r: nat)
    requires Execution(chatty, run) && n <= m < |run| && r in run[n].requests && run[n].requests[r].Joining?
    ensures run[m].closing && run[m].requests.Keys == run[n].requests.Keys
    ensures run[n].wire <= run[m].wire
    ensures forall k :: |run[n].wire| <= k < |run[m].wire| ==> run[m].wire[k] == run[n].requests[r].id
    ensures |run[m].wire| <= |run[n].wire| + 1
    ensures run[m].requests[r].Returned? ==> run[m].requests[r].result == NoReply
  {
    hide Inv, Execution, Gate, Balance, InOrder, Places, Closure;
    StaysPoisoned(chatty, run, n, m, r);
    Reachable(chatty, run, m);
    if |run[m].wire| > |run[n].wire| + 1 {
      IdsDiffer(chatty, run[m], |run[n].wire|);
    }
  }

  lemma IdsDiffer(chatty: bool, s: State, k: nat)
    requires Inv(chatty, s) && k + 1 < |s.wire|
    ensures s.wire[k] != s.wire[k + 1]
  {
  }

  // ---------------------------------------------------------------------------
  // Where it fails
  // ---------------------------------------------------------------------------

  /** A server that also sends a line of its own shifts every reply: here the first caller is given the
      server's line, and the second caller the reply to the first. */
  lemma ChattyServerCrossWires() returns (run: seq<State>)
    ensures |run| > 0 && Execution(true, run)
    ensures var s := run[|run| - 1];
            && 0 in s.requests && 1 in s.requests
            && s.requests[1].Returned? && s.requests[1].id == 2 && s.requests[1].result == Got(ReplyTo(1), 1)
            && s.requests[0].Returned? && s.requests[0].id == 1 && s.requests[0].result == Got(Unsolicited, 0)
            && !s.writeFailed && s.readFailures == 0 && !s.closing
  {
    run := [Start];
    assert Execution(true, run);
    run := Extend(true, run, OfOther(ServerSpeaks));
    run := Exchange(run, 0);
    run := Exchange(run, 1);
  }

  /** A failed read leaves its request unanswered and the connection open. The gate is free again, and one
      more request was written than replies were read, though the server never sent anything of its own. */
  lemma FailedReadLosesBalance() returns (run: seq<State>)
    ensures |run| > 0 && Execution(false, run)
    ensures var s := run[|run| - 1]; s.gate.None? && !s.closing && |s.wire| == s.consumed + 1
  {
    run := [Start];
    assert Execution(false, run);
    hide Execution;
    run := BeginExchange(false, run, 0);
    run := Extend(false, run, OfExchange(WorkerWrites));
    run := Extend(false, run, OfExchange(WorkerReadFails));
    run := Extend(false, run, OfExchange(TakeResult(0, false)));
  }

  lemma Extend(chatty: bool, run: seq<State>, step: Step) returns (more: seq<State>)
    requires Execution(chatty, run) && Enabled(chatty, run[|run| - 1], step)
    ensures |more| > 0 && Execution(chatty, more) && more[|more| - 1] == Apply(chatty, run[|run| - 1], step)
  {
    more := run + [Apply(chatty, run[|run| - 1], step)];
    forall k | 0 <= k < |more| - 1 ensures Next(chatty, more[k], more[k + 1]) {
      if k < |run| - 1 {
        assert Next(chatty, run[k], run[k + 1]);
      }
    }
  }

  ghost predicate Idle(s: State) {
    && s.gate.None? && s.worker.None? && !s.closing && !s.writeFailed && s.readFailures == 0
    && s.answered == |s.wire| == s.consumed && |s.lines| == s.consumed + 1
  }

  /** One full exchange in which the server's answer queues up behind an earlier line. */
  lemma Exchange(run: seq<State>, r: nat) returns (more: seq<State>)
    requires Execution(true, run) && Idle(run[|run| - 1]) && r !in run[|run| - 1].requests
    ensures Execution(true, more) && Idle(more[|more| - 1])
    ensures var s, t := run[|run| - 1], more[|more| - 1];
            && t.requests == s.requests[r := Returned(s.nextID + 1, Got(s.lines[s.consumed], s.consumed))]
            && t.nextID == s.nextID + 1 && t.consumed == s.consumed + 1
            && t.lines == s.lines + [ReplyTo(s.nextID + 1)]
  {
    hide Execution;
    more := BeginExchange(true, run, r);
    more := Extend(true, more, OfExchange(WorkerWrites));
    more := Extend(true, more, OfOther(ServerAnswers));
    more := FinishExchange(more, r);
  }

  lemma BeginExchange(chatty: bool, run: seq<State>, r: nat) returns (more: seq<State>)
    requires Execution(chatty, run) && r !in run[|run| - 1].requests
    requires run[|run| - 1].gate.None? && run[|run| - 1].worker.None? && !run[|run| - 1].closing
    ensures Execution(chatty, more)
    ensures var s := run[|run| - 1];
            more[|more| - 1] == s.(requests := s.requests[r := Exchanging(s.nextID + 1)], gate := Some(r),
                                   nextID := s.nextID + 1, worker := Some(Worker(r, s.nextID + 1, Writing)))
  {
    hide Execution;
    more := Extend(chatty, run, OfGate(Enter(r)));
    more := Extend(chatty, more, OfGate(TakeGate(r)));
    more := Extend(chatty, more, OfGate(FindOpen(r)));
    more := Extend(chatty, more, OfGate(StartWorker(r)));
  }

  lemma FinishExchange(run: seq<State>, r: nat) returns (more: seq<State>)
    requires Execution(true, run)
    requires var s := run[|run| - 1];
             && r in s.requests && s.requests[r].Exchanging? && s.readFailures == 0 && s.consumed < |s.lines|
             && s.worker == Some(Worker(r, s.requests[r].id, Reading))
    ensures Execution(true, more)
    ensures var s := run[|run| - 1];
            more[|more| - 1] == s.(requests := s.requests[r := Returned(s.requests[r].id, Got(s.lines[s.consumed], s.consumed))],
                                   gate := None, worker := None, consumed := s.consumed + 1)
  {
    hide Execution;
    more := Extend(true, run, OfExchange(WorkerReads));
    more := Extend(true, more, OfExchange(TakeResult(r, true)));
    more := Extend(true, more, OfGate(Depart(r)));
  }
}
