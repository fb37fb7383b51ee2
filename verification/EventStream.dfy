/** Delivery of a run's events (agent/run.go Events, Wait, emit, complete, emitTerminal).

    One producer, a bounded channel, and one claimed consumer. Sends, receives, the two selects of
    emitTerminal, the claims and the close are single steps, taken in any order. */
module EventStream {
  import opened Types

  datatype Event = Progress(id: nat) | Terminal

  datatype Owner = Unclaimed | EventsCaller | WaitDrainer

  /** Where the producer stands: running, at either select of emitTerminal, past it, or closed. */
  datatype Producer = Emitting | TrySend | TryDiscard | Sent | Closed

  /** sent and lostAt are history: the successfully emitted events, and the index of a discarded one. */
  datatype State = State(buffer: seq<Event>, producer: Producer, owner: Owner, received: seq<Event>,
                         sent: seq<nat>, lostAt: Option<nat>)

  datatype Step =
    | Emit(id: nat)
    | BeginTerminal
    | SendTerminal
    | FindFull
    | DiscardOldest
    | NothingToDiscard
    | Close
    | ClaimEvents
    | ClaimWait
    | Receive(who: Owner)

  predicate Enabled(capacity: nat, s: State, step: Step) {
    match step
    case Emit(_) => s.producer == Emitting && |s.buffer| < capacity
    case BeginTerminal => s.producer == Emitting
    case SendTerminal => s.producer == TrySend && |s.buffer| < capacity
    case FindFull => s.producer == TrySend && |s.buffer| >= capacity
    case DiscardOldest => s.producer == TryDiscard && s.buffer != []
    case NothingToDiscard => s.producer == TryDiscard && s.buffer == []
    case Close => s.producer == Sent
    case ClaimEvents => true
    case ClaimWait => true
    case Receive(who) => who != Unclaimed && s.owner == who && s.buffer != []
  }

  function Apply(capacity: nat, s: State, step: Step): State
    requires Enabled(capacity, s, step)
  {
    match step
    case Emit(id) => s.(buffer := s.buffer + [Progress(id)], sent := s.sent + [id])
    case BeginTerminal => s.(producer := TrySend)
    case SendTerminal => s.(buffer := s.buffer + [Terminal], producer := Sent)
    case FindFull => s.(producer := TryDiscard)
    case DiscardOldest => s.(buffer := s.buffer[1..], producer := TrySend, lostAt := Some(|s.received|))
    case NothingToDiscard => s.(producer := TrySend)
    case Close => s.(producer := Closed)
    case ClaimEvents => if s.owner == Unclaimed then s.(owner := EventsCaller) else s
    case ClaimWait => if s.owner == Unclaimed then s.(owner := WaitDrainer) else s
    case Receive(_) => s.(buffer := s.buffer[1..], received := s.received + [s.buffer[0]])
  }

  const Start := State([], Emitting, Unclaimed, [], [], None)

  ghost predicate Next(capacity: nat, s: State, t: State) {
    exists step :: Enabled(capacity, s, step) && t == Apply(capacity, s, step)
  }

  ghost predicate Execution(capacity: nat, run: seq<State>) {
    && |run| > 0 && run[0] == Start
    && forall k :: 0 <= k < |run| - 1 ==> Next(capacity, run[k], run[k + 1])
  }

  // ---------------------------------------------------------------------------
  // The invariant
  // ---------------------------------------------------------------------------

  function AsEvents(ids: seq<nat>): seq<Event> {
    seq(|ids|, k requires 0 <= k < |ids| => Progress(ids[k]))
  }

  /** The emitted events, in order, without the discarded one. */
  function Delivered(sent: seq<nat>, lostAt: Option<nat>): seq<Event> {
    if lostAt.Some? && lostAt.value < |sent| then AsEvents(sent[..lostAt.value]) + AsEvents(sent[lostAt.value + 1..])
    else AsEvents(sent)
  }

  function Tail(p: Producer): seq<Event> {
    if p == Sent || p == Closed then [Terminal] else []
  }

  ghost predicate Inv(capacity: nat, s: State) {
    && |s.buffer| <= capacity
    && s.received + s.buffer == Delivered(s.sent, s.lostAt) + Tail(s.producer)
    && (s.lostAt.Some? ==> s.lostAt.value < |s.sent| <= s.lostAt.value + capacity)
    && (s.lostAt.Some? ==> s.producer != Emitting && s.producer != TryDiscard)
    && (s.lostAt.Some? && s.producer == TrySend ==> |s.buffer| < capacity)
    && (s.received != [] ==> s.owner != Unclaimed)
  }

  lemma PushEvent(sent: seq<nat>, id: nat)
    ensures AsEvents(sent + [id]) == AsEvents(sent) + [Progress(id)]
  {
  }

  lemma LoseAt(sent: seq<nat>, received: seq<Event>, buffer: seq<Event>)
    requires buffer != [] && received + buffer == AsEvents(sent)
    ensures |received| < |sent|
    ensures received + buffer[1..] == Delivered(sent, Some(|received|))
  {
    var k := |received|;
    assert |received + buffer| == |sent|;
    assert received == AsEvents(sent)[..k] == AsEvents(sent[..k]);
    assert buffer == AsEvents(sent)[k..];
    assert buffer[1..] == AsEvents(sent[k + 1..]);
  }

  lemma KeepsInv(capacity: nat, s: State, step: Step)
    requires capacity > 0 && Enabled(capacity, s, step) && Inv(capacity, s)
    ensures Inv(capacity, Apply(capacity, s, step))
  {
    hide Delivered;
    match step {
      case Emit(id) =>
        NothingLost(s.sent);
        NothingLost(s.sent + [id]);
        PushEvent(s.sent, id);
        assert s.received + (s.buffer + [Progress(id)]) == (s.received + s.buffer) + [Progress(id)];
      case SendTerminal =>
        assert s.received + (s.buffer + [Terminal]) == (s.received + s.buffer) + [Terminal];
      case DiscardOldest =>
        NothingLost(s.sent);
        LoseAt(s.sent, s.received, s.buffer);
        assert |AsEvents(s.sent)| == |s.sent|;
      case Receive(_) =>
        assert (s.received + [s.buffer[0]]) + s.buffer[1..] == s.received + s.buffer;
      case _ =>
    }
  }

  lemma NothingLost(sent: seq<nat>)
    ensures Delivered(sent, None) == AsEvents(sent)
  {
  }

  lemma {:induction false} Reachable(capacity: nat, run: seq<State>, n: nat)
    requires capacity > 0 && Execution(capacity, run) && n < |run|
    ensures Inv(capacity, run[n])
  {
    if n > 0 {
      Reachable(capacity, run, n - 1);
      assert Next(capacity, run[n - 1], run[n - 1 + 1]);
      var step :| Enabled(capacity, run[n - 1], step) && run[n] == Apply(capacity, run[n - 1], step);
      KeepsInv(capacity, run[n - 1], step);
    }
  }

  // ---------------------------------------------------------------------------
  // Main results
  // ---------------------------------------------------------------------------

  /** A consumer that has drained the closed stream saw every emitted event in order, with at most one
      missing, and then exactly one terminal event. The missing one is among the last capacity events. */
  lemma TerminalDelivery(capacity: nat, run: seq<State>, n: nat)
    requires capacity > 0 && Execution(capacity, run) && n < |run|
    requires run[n].producer == Closed && run[n].buffer == []
    ensures var s := run[n];
            && s.received == Delivered(s.sent, s.lostAt) + [Terminal]
            && Terminal !in Delivered(s.sent, s.lostAt)
            && (s.lostAt.Some? ==> s.lostAt.value < |s.sent| <= s.lostAt.value + capacity)
            && |s.sent| <= |s.received| <= |s.sent| + 1
  {
    Reachable(capacity, run, n);
    var s := run[n];
    assert s.received + s.buffer == s.received;
  }

  /** At every moment what was received is an initial part of that stream. */
  lemma ReceivedIsPrefix(capacity: nat, run: seq<State>, n: nat)
    requires capacity > 0 && Execution(capacity, run) && n < |run|
    ensures run[n].received <= Delivered(run[n].sent, run[n].lostAt) + [Terminal]
  {
    Reachable(capacity, run, n);
    var s := run[n];
    assert s.received <= s.received + s.buffer;
  }

  /** Producer steps that emitTerminal still needs. */
  function TerminalRank(capacity: nat, s: State): nat {
    match s.producer
    case TrySend => if |s.buffer| < capacity then 1 else 3
    case TryDiscard => 2
    case _ => 0
  }

  predicate OfTerminal(step: Step) {
    step.SendTerminal? || step.FindFull? || step.DiscardOldest? || step.NothingToDiscard?
  }

  /** emitTerminal never waits, and ends after at most three steps of its own: each of them uses up
      rank, and no consumer step adds any. */
  lemma EmitTerminalTerminates(capacity: nat, run: seq<State>, n: nat)
    requires capacity > 0 && Execution(capacity, run) && n < |run|
    requires run[n].producer == TrySend || run[n].producer == TryDiscard
    ensures TerminalRank(capacity, run[n]) <= 3
    ensures exists step :: OfTerminal(step) && Enabled(capacity, run[n], step)
    ensures forall step :: Enabled(capacity, run[n], step) ==>
              var t := Apply(capacity, run[n], step);
              if OfTerminal(step) then TerminalRank(capacity, t) < TerminalRank(capacity, run[n])
              else TerminalRank(capacity, t) <= TerminalRank(capacity, run[n])
  {
    Reachable(capacity, run, n);
    var s := run[n];
    var step := if s.producer == TrySend
                then (if |s.buffer| < capacity then SendTerminal else FindFull)
                else (if s.buffer != [] then DiscardOldest else NothingToDiscard);
    assert OfTerminal(step) && Enabled(capacity, s, step);
  }

  /** The stream has one kind of consumer for its whole life, so the drainer of Wait and the caller of
      Events never take events from each other. */
  lemma {:induction false} OneOwner(capacity: nat, run: seq<State>, n: nat, m: nat)
    requires Execution(capacity, run) && n <= m < |run| && run[n].owner != Unclaimed
    ensures run[m].owner == run[n].owner
    decreases m - n
  {
    if n < m {
      OneOwner(capacity, run, n, m - 1);
      assert Next(capacity, run[m - 1], run[m - 1 + 1]);
    }
  }

  /** Whoever comes first gets the stream, be it the caller of Events or the drainer of Wait. */
  lemma FirstClaimWins(capacity: nat, run: seq<State>, n: nat, who: Owner)
    requires Execution(capacity, run) && n < |run| && who != Unclaimed
    ensures (exists t :: Next(capacity, run[n], t) && t.owner == who) <==> run[n].owner in {Unclaimed, who}
  {
    var step := if who == EventsCaller then ClaimEvents else ClaimWait;
    assert Next(capacity, run[n], Apply(capacity, run[n], step));
  }

  /** An event can be emitted exactly while the run is at work and the buffer is not full. */
  lemma EmitsExactly(capacity: nat, run: seq<State>, n: nat, id: nat)
    requires Execution(capacity, run) && n < |run|
    ensures (exists t :: Next(capacity, run[n], t) && t.sent == run[n].sent + [id])
       <==> run[n].producer == Emitting && |run[n].buffer| < capacity
  {
    hide Execution;
    var s := run[n];
    assert |s.sent + [id]| == |s.sent| + 1;
    if Enabled(capacity, s, Emit(id)) {
      assert Next(capacity, s, Apply(capacity, s, Emit(id)));
    }
  }
}
