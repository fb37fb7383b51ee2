/** Reading a provider's event and error channels (agent/loop.go readStream, api/client.go).

    The producer may interleave sends with the reader in any way. Its only duty is to publish an error
    before it closes the event channel. The error channel holds one value. */
module ReadStream {
  import opened Types

  type Event = nat

  /** What the reader's variable errs stands for: the channel, or nil once it was seen closed. */
  datatype Reader = Reading(errsIsNil: bool) | Returned(err: Option<Error>)

  /** sent, processed and failed are history. */
  datatype State = State(events: seq<Event>, eventsClosed: bool, errs: seq<Option<Error>>, errsClosed: bool,
                         contextErr: Option<Error>, reader: Reader,
                         sent: seq<Event>, processed: seq<Event>, failed: bool)

  datatype Step =
    | SendEvent(e: Event)
    | SendError(err: Option<Error>)
    | CloseErrors
    | CloseEvents
    | CancelContext(cause: Error)
    | TakeEvent
    | SeeEventsClosed
    | TakeError
    | SeeErrorsClosed
    | SeeContextDone

  predicate Enabled(s: State, step: Step) {
    match step
    case SendEvent(_) => !s.eventsClosed
    case SendError(_) => !s.eventsClosed && !s.errsClosed && s.errs == []
    case CloseErrors => !s.errsClosed
    case CloseEvents => !s.eventsClosed
    case CancelContext(_) => s.contextErr.None?
    case TakeEvent => s.reader.Reading? && s.events != []
    case SeeEventsClosed => s.reader.Reading? && s.events == [] && s.eventsClosed
    case TakeError => s.reader.Reading? && !s.reader.errsIsNil && s.errs != []
    case SeeErrorsClosed => s.reader.Reading? && !s.reader.errsIsNil && s.errs == [] && s.errsClosed
    case SeeContextDone => s.reader.Reading? && s.contextErr.Some?
  }

  /** The inner select once the event channel is closed: an error already there, the zero value of a
      closed channel, or else the context. */
  function AtEnd(s: State): Option<Error>
    requires s.reader.Reading?
  {
    if s.reader.errsIsNil then s.contextErr
    else if s.errs != [] then s.errs[0]
    else if s.errsClosed then None
    else s.contextErr
  }

  function Apply(s: State, step: Step): State
    requires Enabled(s, step)
  {
    match step
    case SendEvent(e) => s.(events := s.events + [e], sent := s.sent + [e])
    case SendError(err) => s.(errs := s.errs + [err], failed := s.failed || err.Some?)
    case CloseErrors => s.(errsClosed := true)
    case CloseEvents => s.(eventsClosed := true)
    case CancelContext(cause) => s.(contextErr := Some(cause))
    case TakeEvent => s.(events := s.events[1..], processed := s.processed + [s.events[0]])
    case SeeEventsClosed => s.(reader := Returned(AtEnd(s)))
    case TakeError =>
      if s.errs[0].Some? then s.(errs := s.errs[1..], reader := Returned(s.errs[0])) else s.(errs := s.errs[1..])
    case SeeErrorsClosed => s.(reader := Reading(true))
    case SeeContextDone => s.(reader := Returned(s.contextErr))
  }

  /** readStream has checked the context before it starts. */
  const Start := State([], false, [], false, None, Reading(false), [], [], false)

  ghost predicate Next(s: State, t: State) {
    exists step :: Enabled(s, step) && t == Apply(s, step)
  }

  ghost predicate Execution(run: seq<State>) {
    && |run| > 0 && run[0] == Start
    && forall k :: 0 <= k < |run| - 1 ==> Next(run[k], run[k + 1])
  }

  ghost predicate Inv(s: State) {
    && s.sent == s.processed + s.events
    && |s.errs| <= 1
    && (forall k :: 0 <= k < |s.errs| && s.errs[k].Some? ==> s.failed)
    && (s.reader.Reading? && s.failed ==> !s.reader.errsIsNil && |s.errs| == 1 && s.errs[0].Some?)
    && (s.reader.Reading? && s.reader.errsIsNil ==> s.errsClosed)
    && (s.reader == Returned(None) ==> s.eventsClosed && s.events == [] && !s.failed)
  }

  lemma KeepsInv(s: State, step: Step)
    requires Enabled(s, step) && Inv(s)
    ensures Inv(Apply(s, step))
  {
    match step {
      case SendEvent(e) => assert s.processed + (s.events + [e]) == (s.processed + s.events) + [e];
      case TakeEvent => assert (s.processed + [s.events[0]]) + s.events[1..] == s.processed + s.events;
      case _ =>
    }
  }

  lemma {:induction false} Reachable(run: seq<State>, n: nat)
    requires Execution(run) && n < |run|
    ensures Inv(run[n])
  {
    if n > 0 {
      Reachable(run, n - 1);
      assert Next(run[n - 1], run[n - 1 + 1]);
      var step :| Enabled(run[n - 1], step) && run[n] == Apply(run[n - 1], step);
      KeepsInv(run[n - 1], step);
    }
  }

  /** Main result: a nil result means that no error was published and that every event sent was
      processed, in order; and it stays so for the rest of the run. */
  lemma NilMeansComplete(run: seq<State>, n: nat)
    requires Execution(run) && n < |run| && run[n].reader == Returned(None)
    ensures !run[n].failed && run[n].processed == run[n].sent && run[n].eventsClosed
  {
    Reachable(run, n);
    assert run[n].processed + [] == run[n].processed;
  }

  /** The reader only returns what it was given: nil from a channel that is closed or holds a nil, or else the
      error that waits in the error channel, or that of the context. An error that waits there is not passed
      over for nil. */
  lemma ReturnsWhatItWasGiven(run: seq<State>, n: nat)
    requires Execution(run) && n + 1 < |run| && run[n].reader.Reading? && run[n + 1].reader.Returned?
    ensures var s, err := run[n], run[n + 1].reader.err;
            && (err.Some? ==> err == s.contextErr || (s.errs != [] && err == s.errs[0]))
            && (s.errs != [] && s.errs[0].Some? ==> err == s.errs[0] || (err.Some? && err == s.contextErr))
            && (s.errs != [] && s.errs[0].Some? && s.contextErr.None? ==> err == s.errs[0])
  {
    Reachable(run, n);
    assert Next(run[n], run[n + 1]);
  }

  /** Whatever the reader returns, it has processed an initial part of what was sent, in order. */
  lemma ProcessedInOrder(run: seq<State>, n: nat)
    requires Execution(run) && n < |run|
    ensures run[n].processed <= run[n].sent
  {
    Reachable(run, n);
  }

  /** Nil does not mean that the context is alive: a producer that stops early on cancellation and closes
      both channels is read as a complete, shorter stream. */
  lemma NilAfterCancel(cause: Error) returns (run: seq<State>)
    ensures Execution(run) && run[|run| - 1].reader == Returned(None) && run[|run| - 1].contextErr == Some(cause)
  {
    var a := Apply(Start, CancelContext(cause));
    var b := Apply(a, CloseErrors);
    var c := Apply(b, CloseEvents);
    var d := Apply(c, SeeEventsClosed);
    run := [Start, a, b, c, d];
    assert Next(Start, a) by { assert Enabled(Start, CancelContext(cause)); }
    assert Next(a, b) by { assert Enabled(a, CloseErrors); }
    assert Next(b, c) by { assert Enabled(b, CloseEvents); }
    assert Next(c, d) by { assert Enabled(c, SeeEventsClosed); }
  }

  /** All events taken, the event channel closed, and the error channel, which the reader still holds,
      closed or holding something, though no error was ever published. */
  predicate LooksComplete(s: State) {
    && s.reader.Reading? && s.events == [] && s.eventsClosed
    && !s.failed && !s.reader.errsIsNil && (s.errsClosed || s.errs != [])
  }

  lemma NilStep(s: State, step: Step)
    requires Enabled(s, step) && Inv(s) && s.reader.Reading? && s.contextErr.Some?
    ensures Apply(s, step).reader == Returned(None) <==> step == SeeEventsClosed && LooksComplete(s)
  {
  }

  /** In any execution, the step with which the reader returns under a cancelled context returns nil if and
      only if it is the sight of the closed events, and the stream looks complete. */
  lemma CancelMissedExactly(run: seq<State>, n: nat, step: Step)
    requires Execution(run) && n + 1 < |run| && Enabled(run[n], step) && run[n + 1] == Apply(run[n], step)
    requires run[n].reader.Reading? && run[n].contextErr.Some?
    ensures run[n + 1].reader == Returned(None) <==> step == SeeEventsClosed && LooksComplete(run[n])
  {
    Reachable(run, n);
    NilStep(run[n], step);
  }

  /** A cancellation can still go unreported by the very next step if and only if the stream looks complete. */
  lemma CancelCanBeMissedExactly(run: seq<State>, n: nat)
    requires Execution(run) && n < |run| && run[n].reader.Reading? && run[n].contextErr.Some?
    ensures (exists t :: Next(run[n], t) && t.reader == Returned(None)) <==> LooksComplete(run[n])
  {
    Reachable(run, n);
    if LooksComplete(run[n]) {
      NilStep(run[n], SeeEventsClosed);
      assert Next(run[n], Apply(run[n], SeeEventsClosed));
    }
    if t :| Next(run[n], t) && t.reader == Returned(None) {
      var step :| Enabled(run[n], step) && t == Apply(run[n], step);
      NilStep(run[n], step);
    }
  }

  /** The producer closes its events at step k. */
  predicate ClosesEvents(run: seq<State>, k: nat) {
    k + 1 < |run| && !run[k].eventsClosed && run[k + 1].eventsClosed
  }

  /** A producer that publishes an error whenever the context has ended before it closes the events. */
  ghost predicate TellsCancellation(run: seq<State>) {
    forall k: nat :: ClosesEvents(run, k) && run[k].contextErr.Some? ==> run[k].failed
  }

  lemma {:induction false} ClosedSomewhere(run: seq<State>, n: nat) returns (k: nat)
    requires Execution(run) && n < |run| && run[n].eventsClosed
    ensures k < n && ClosesEvents(run, k)
  {
    if run[n - 1].eventsClosed {
      k := ClosedSomewhere(run, n - 1);
    } else {
      k := n - 1;
    }
  }

  lemma {:induction false} NothingSentAfterClose(run: seq<State>, k: nat, n: nat)
    requires Execution(run) && ClosesEvents(run, k) && k < n < |run|
    ensures run[n].eventsClosed && run[n].sent == run[k].sent && (run[k].failed <==> run[n].failed)
    decreases n - k
  {
    assert Next(run[n - 1], run[n - 1 + 1]);
    if k + 1 < n {
      NothingSentAfterClose(run, k, n - 1);
    }
  }

  /** When the reader returns nil, the producer had closed its events with everything in them that the
      reader processed. If the producer tells, the context had not ended by then. */
  lemma NilFromTellingProducer(run: seq<State>, n: nat) returns (k: nat)
    requires Execution(run) && n < |run| && run[n].reader == Returned(None)
    ensures k < n && ClosesEvents(run, k) && run[k].sent == run[n].processed
    ensures TellsCancellation(run) ==> run[k].contextErr.None?
  {
    NilMeansComplete(run, n);
    k := ClosedSomewhere(run, n);
    NothingSentAfterClose(run, k, n);
  }

  /** The reader never waits for a producer that has closed its event channel. */
  lemma ReaderCanFinish(run: seq<State>, n: nat)
    requires Execution(run) && n < |run| && run[n].reader.Reading? && run[n].eventsClosed
    ensures Enabled(run[n], TakeEvent) || Enabled(run[n], SeeEventsClosed)
  {
  }
}
