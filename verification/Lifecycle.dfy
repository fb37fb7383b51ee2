/** Agents, sessions and runs (agent/session.go, agent/run.go, agent/agent.go) as a step relation.

    Any number of sessions, runs and callers of Close. One step per critical section, channel operation,
    atomic load, cancellation and hook return. A Start call reads the agent's closed flag after it has
    taken the session lock, so that read and the reservation are two steps with the lock held between. */
module Lifecycle {
  import opened Types

  /** A run: reserved and waiting for a slot, past the select, running, in complete, done. */
  datatype RunPc = WaitingSlot | PastSelect | Running | Completing | Done

  /** completions counts the executions of complete's final critical section. */
  datatype Run = Run(session: nat, pc: RunPc, hasCapacity: bool, cancelled: bool, completions: nat)

  /** newSession: inside its SessionStart hook, past it, startDone closed, returned. */
  datatype StartPc = Hooking | Recorded(sawClosed: bool) | Failing | StartDone(sawClosed: bool) | Returned(ok: bool)

  datatype Once = NotYet | InProgress | Complete

  /** locked: a Start call holds runMu and has seen the agent open. */
  datatype Session = Session(start: StartPc, registered: bool, startOK: bool, closed: bool, locked: bool,
                             active: Option<nat>, endOnce: Once, endRuns: nat)

  /** A caller of Session.Close. */
  datatype CloserPc = ToCancel(run: Option<nat>) | WaitRun(run: Option<nat>) | WaitStart | AtOnce | InHook | Closed
  datatype Closer = Closer(session: nat, pc: CloserPc)

  /** Agent.Close: not called, requesting every close, joining session by session, returned. */
  datatype AgentPc =
    | Open
    | Requesting(todo: set<nat>, toCancel: Option<nat>)
    | Joining(todo: set<nat>, current: Option<nat>)
    | CloseReturned

  datatype State = State(sessions: map<nat, Session>, runs: map<nat, Run>, closers: map<nat, Closer>,
                         slots: nat, agentClosed: bool, agent: AgentPc, snapshot: set<nat>)

  /** newSession, and Start up to its reservation. */
  datatype SessionMove =
    | Insert(sid: nat)
    | HookSucceeds(sid: nat)
    | HookFails(sid: nat)
    | FailureCloses(sid: nat)
    | CloseStartDone(sid: nat)
    | NewSessionReturns(sid: nat)
    | StartLocks(sid: nat)
    | StartRefuses(sid: nat)

  /** Start from its reservation on, the run, and complete. */
  datatype RunMove =
    | StartReserves(sid: nat, r: nat)
    | AcquireSlot(r: nat)
    | StopWaiting(r: nat)
    | Recheck(r: nat)
    | RunEnds(r: nat)
    | CancelRun(r: nat)
    | Finish(r: nat)

  /** Session.Close. */
  datatype CloserMove =
    | RequestClose(sid: nat, c: nat)
    | CloserCancels(c: nat)
    | RunJoined(c: nat)
    | StartJoined(c: nat)
    | EnterOnce(c: nat)
    | OnceAlreadyDone(c: nat)
    | EndHookReturns(c: nat)

  /** Agent.Close. */
  datatype AgentMove =
    | AgentCloses
    | RequestNext(sid: nat)
    | CancelNext
    | AllRequested
    | JoinNext(sid: nat, c: nat)
    | JoinedOne
    | AgentCloseReturns

  datatype Step = OfSession(session: SessionMove) | OfRun(run: RunMove) | OfCloser(closer: CloserMove) | OfAgent(agent: AgentMove)

  predicate StartedUp(p: StartPc) {
    p.StartDone? || p.Returned?
  }

  predicate Free(s: State, sid: nat) {
    sid in s.sessions && !s.sessions[sid].locked
  }

  predicate RunIs(s: State, r: nat, pc: RunPc) {
    r in s.runs && s.runs[r].pc == pc
  }

  predicate CloserAt(s: State, c: nat) {
    c in s.closers && s.closers[c].session in s.sessions
  }

  predicate SessionCan(s: State, m: SessionMove) {
    match m
    case Insert(sid) => sid !in s.sessions && !s.agentClosed
    case HookSucceeds(sid) => Free(s, sid) && s.sessions[sid].start.Hooking?
    case HookFails(sid) => sid in s.sessions && s.sessions[sid].start.Hooking?
    case FailureCloses(sid) => Free(s, sid) && s.sessions[sid].start.Failing?
    case CloseStartDone(sid) => sid in s.sessions && s.sessions[sid].start.Recorded?
    case NewSessionReturns(sid) => sid in s.sessions && s.sessions[sid].start.StartDone?
    case StartLocks(sid) => Free(s, sid) && !s.agentClosed
    case StartRefuses(sid) => sid in s.sessions && s.sessions[sid].locked
  }

  predicate RunCan(capacity: nat, s: State, m: RunMove) {
    match m
    case StartReserves(sid, r) =>
      && sid in s.sessions && s.sessions[sid].locked && !s.sessions[sid].closed && s.sessions[sid].active.None?
      && r !in s.runs
    case AcquireSlot(r) => RunIs(s, r, WaitingSlot) && s.slots < capacity
    case StopWaiting(r) => RunIs(s, r, WaitingSlot) && s.runs[r].cancelled
    case Recheck(r) => RunIs(s, r, PastSelect) && Free(s, s.runs[r].session)
    case RunEnds(r) => RunIs(s, r, Running)
    case CancelRun(r) => r in s.runs
    case Finish(r) => RunIs(s, r, Completing) && Free(s, s.runs[r].session) && (s.runs[r].hasCapacity ==> s.slots > 0)
  }

  predicate CloserCan(s: State, m: CloserMove) {
    match m
    case RequestClose(sid, c) => Free(s, sid) && c !in s.closers
    case CloserCancels(c) => c in s.closers && s.closers[c].pc.ToCancel?
    case RunJoined(c) =>
      && c in s.closers && s.closers[c].pc.WaitRun?
      && (s.closers[c].pc.run.Some? ==> RunIs(s, s.closers[c].pc.run.value, Done))
    case StartJoined(c) => CloserAt(s, c) && s.closers[c].pc.WaitStart? && StartedUp(s.sessions[s.closers[c].session].start)
    case EnterOnce(c) => CloserAt(s, c) && s.closers[c].pc.AtOnce? && s.sessions[s.closers[c].session].endOnce.NotYet?
    case OnceAlreadyDone(c) => CloserAt(s, c) && s.closers[c].pc.AtOnce? && s.sessions[s.closers[c].session].endOnce.Complete?
    case EndHookReturns(c) => CloserAt(s, c) && s.closers[c].pc.InHook?
  }

  predicate AgentCan(s: State, m: AgentMove) {
    match m
    case AgentCloses => s.agent.Open? && !s.agentClosed
    case RequestNext(sid) => s.agent.Requesting? && s.agent.toCancel.None? && sid in s.agent.todo && Free(s, sid)
    case CancelNext => s.agent.Requesting? && s.agent.toCancel.Some?
    case AllRequested => s.agent.Requesting? && s.agent.toCancel.None? && s.agent.todo == {}
    case JoinNext(sid, c) =>
      s.agent.Joining? && s.agent.current.None? && sid in s.agent.todo && Free(s, sid) && c !in s.closers
    case JoinedOne =>
      && s.agent.Joining? && s.agent.current.Some? && s.agent.current.value in s.closers
      && s.closers[s.agent.current.value].pc.Closed?
    case AgentCloseReturns => s.agent.Joining? && s.agent.current.None? && s.agent.todo == {}
  }

  function SetSession(s: State, sid: nat, x: Session): State {
    s.(sessions := s.sessions[sid := x])
  }

  function SetRun(s: State, r: nat, x: Run): State {
    s.(runs := s.runs[r := x])
  }

  function SetCloser(s: State, c: nat, pc: CloserPc): State
    requires c in s.closers
  {
    s.(closers := s.closers[c := s.closers[c].(pc := pc)])
  }

  function CancelIn(s: State, r: Option<nat>): State {
    if r.Some? && r.value in s.runs then SetRun(s, r.value, s.runs[r.value].(cancelled := true)) else s
  }

  function SessionDoes(s: State, m: SessionMove): State
    requires SessionCan(s, m)
  {
    match m
    case Insert(sid) =>
      SetSession(s, sid, Session(Hooking, true, false, false, false, None, NotYet, 0))
    case HookSucceeds(sid) =>
      SetSession(s, sid, s.sessions[sid].(start := Recorded(s.sessions[sid].closed), startOK := true))
    case HookFails(sid) => SetSession(s, sid, s.sessions[sid].(start := Failing, registered := false))
    case FailureCloses(sid) => SetSession(s, sid, s.sessions[sid].(start := Recorded(true), closed := true))
    case CloseStartDone(sid) => SetSession(s, sid, s.sessions[sid].(start := StartDone(s.sessions[sid].start.sawClosed)))
    case NewSessionReturns(sid) =>
      SetSession(s, sid, s.sessions[sid].(start := Returned(!s.sessions[sid].start.sawClosed && !s.agentClosed)))
    case StartLocks(sid) => SetSession(s, sid, s.sessions[sid].(locked := true))
    case StartRefuses(sid) => SetSession(s, sid, s.sessions[sid].(locked := false))
  }

  function RunDoes(capacity: nat, s: State, m: RunMove): State
    requires RunCan(capacity, s, m)
  {
    match m
    case StartReserves(sid, r) =>
      SetRun(SetSession(s, sid, s.sessions[sid].(locked := false, active := Some(r))), r,
             Run(sid, WaitingSlot, false, false, 0))
    case AcquireSlot(r) => SetRun(s, r, s.runs[r].(pc := PastSelect, hasCapacity := true)).(slots := s.slots + 1)
    case StopWaiting(r) => SetRun(s, r, s.runs[r].(pc := PastSelect))
    case Recheck(r) =>
      var refused := s.agentClosed || s.sessions[s.runs[r].session].closed || s.runs[r].cancelled;
      SetRun(s, r, s.runs[r].(pc := if refused then Completing else Running))
    case RunEnds(r) => SetRun(s, r, s.runs[r].(pc := Completing))
    case CancelRun(r) => SetRun(s, r, s.runs[r].(cancelled := true))
    case Finish(r) =>
      var x := s.runs[r];
      var y := s.sessions[x.session];
      SetSession(SetRun(s, r, x.(pc := Done, completions := x.completions + 1)), x.session,
                 if y.active == Some(r) then y.(active := None) else y)
        .(slots := if x.hasCapacity then s.slots - 1 else s.slots)
  }

  function CloserDoes(s: State, m: CloserMove): State
    requires CloserCan(s, m)
  {
    match m
    case RequestClose(sid, c) =>
      SetSession(s, sid, s.sessions[sid].(closed := true))
        .(closers := s.closers[c := Closer(sid, ToCancel(s.sessions[sid].active))])
    case CloserCancels(c) =>
      SetCloser(CancelIn(s, s.closers[c].pc.run), c, WaitRun(s.closers[c].pc.run))
    case RunJoined(c) => SetCloser(s, c, WaitStart)
    case StartJoined(c) => SetCloser(s, c, if s.sessions[s.closers[c].session].startOK then AtOnce else Closed)
    case EnterOnce(c) =>
      var sid := s.closers[c].session;
      SetCloser(SetSession(s, sid, s.sessions[sid].(endOnce := InProgress, endRuns := s.sessions[sid].endRuns + 1)), c, InHook)
    case OnceAlreadyDone(c) => SetCloser(s, c, Closed)
    case EndHookReturns(c) =>
      var sid := s.closers[c].session;
      SetCloser(SetSession(s, sid, s.sessions[sid].(endOnce := Complete)), c, Closed)
  }

  function AgentDoes(s: State, m: AgentMove): State
    requires AgentCan(s, m)
  {
    match m
    case AgentCloses =>
      var all := set sid | sid in s.sessions && s.sessions[sid].registered;
      s.(agentClosed := true, agent := Requesting(all, None), snapshot := all)
    case RequestNext(sid) =>
      SetSession(s, sid, s.sessions[sid].(closed := true))
        .(agent := Requesting(s.agent.todo - {sid}, s.sessions[sid].active))
    case CancelNext => CancelIn(s, s.agent.toCancel).(agent := Requesting(s.agent.todo, None))
    case AllRequested => s.(agent := Joining(s.snapshot, None))
    case JoinNext(sid, c) =>
      SetSession(s, sid, s.sessions[sid].(closed := true))
        .(closers := s.closers[c := Closer(sid, ToCancel(s.sessions[sid].active))],
          agent := Joining(s.agent.todo, Some(c)))
    case JoinedOne =>
      s.(agent := Joining(s.agent.todo - {s.closers[s.agent.current.value].session}, None))
    case AgentCloseReturns => s.(agent := CloseReturned)
  }

  predicate Enabled(capacity: nat, s: State, step: Step) {
    match step
    case OfSession(m) => SessionCan(s, m)
    case OfRun(m) => RunCan(capacity, s, m)
    case OfCloser(m) => CloserCan(s, m)
    case OfAgent(m) => AgentCan(s, m)
  }

  function Apply(capacity: nat, s: State, step: Step): State
    requires Enabled(capacity, s, step)
  {
    match step
    case OfSession(m) => SessionDoes(s, m)
    case OfRun(m) => RunDoes(capacity, s, m)
    case OfCloser(m) => CloserDoes(s, m)
    case OfAgent(m) => AgentDoes(s, m)
  }

  const Fresh := State(map[], map[], map[], 0, false, Open, {})

  ghost predicate Next(capacity: nat, s: State, t: State) {
    exists step :: Enabled(capacity, s, step) && t == Apply(capacity, s, step)
  }

  ghost predicate Execution(capacity: nat, run: seq<State>) {
    && |run| > 0 && run[0] == Fresh
    && forall k :: 0 <= k < |run| - 1 ==> Next(capacity, run[k], run[k + 1])
  }

  // ---------------------------------------------------------------------------
  // Runs and slots
  // ---------------------------------------------------------------------------

  function Holding(runs: map<nat, Run>): set<nat> {
    set r | r in runs && runs[r].hasCapacity && runs[r].pc != Done
  }

  /** Slots taken are exactly the runs that hold capacity and have not released it. */
  ghost predicate Slots(capacity: nat, s: State) {
    s.slots == |Holding(s.runs)| <= capacity
  }

  ghost predicate Runs(s: State) {
    forall r :: r in s.runs ==>
      var x := s.runs[r];
      && (x.pc == WaitingSlot ==> !x.hasCapacity)
      && (x.pc == PastSelect ==> x.hasCapacity || x.cancelled)
      && (x.pc == Running ==> x.hasCapacity)
      && x.completions == (if x.pc == Done then 1 else 0)
  }

  /** The live runs and the active fields of the sessions name each other. */
  ghost predicate Active(s: State) {
    && (forall r :: r in s.runs ==> s.runs[r].session in s.sessions)
    && (forall r :: r in s.runs && s.runs[r].pc != Done ==> s.sessions[s.runs[r].session].active == Some(r))
    && (forall sid :: sid in s.sessions && s.sessions[sid].active.Some? ==>
          && s.sessions[sid].active.value in s.runs
          && s.runs[s.sessions[sid].active.value].session == sid
          && s.runs[s.sessions[sid].active.value].pc != Done)
  }

  // ---------------------------------------------------------------------------
  // Sessions and their closing
  // ---------------------------------------------------------------------------

  predicate SessionOk(y: Session) {
    && (y.startOK <==> y.registered && !y.start.Hooking?)
    && (y.start.Hooking? ==> y.registered)
    && (y.start.Failing? ==> !y.registered)
    && y.endRuns == (if y.endOnce.NotYet? then 0 else 1)
    && (y.endRuns > 0 ==> y.closed && y.active.None? && y.startOK && StartedUp(y.start))
  }

  ghost predicate Sessions(s: State) {
    forall sid :: sid in s.sessions ==> SessionOk(s.sessions[sid])
  }

  predicate Cancelled(s: State, r: Option<nat>) {
    r.Some? && r.value in s.runs ==> s.runs[r.value].cancelled
  }

  /** A caller of Close has closed the session, knows its one live run, cancels it before it joins it, and past
      the join there is none. */
  predicate CloserOk(s: State, x: Closer) {
    && x.session in s.sessions
    && var y := s.sessions[x.session];
    && y.closed
    && (x.pc.ToCancel? || x.pc.WaitRun? ==>
          && (x.pc.run.Some? ==> x.pc.run.value in s.runs)
          && (y.active.Some? ==> y.active == x.pc.run))
    && (x.pc.WaitRun? ==> Cancelled(s, x.pc.run))
    && (x.pc.WaitStart? || x.pc.AtOnce? || x.pc.InHook? || x.pc.Closed? ==> y.active.None?)
    && (x.pc.AtOnce? || x.pc.InHook? ==> y.startOK)
    && (x.pc.InHook? ==> y.endRuns > 0)
    && (x.pc.AtOnce? || x.pc.InHook? || x.pc.Closed? ==> StartedUp(y.start))
    && (x.pc.Closed? && y.startOK ==> y.endOnce.Complete?)
  }

  ghost predicate Closers(s: State) {
    forall c :: c in s.closers ==> CloserOk(s, s.closers[c])
  }

  ghost predicate Closing(s: State) {
    && (s.agentClosed <==> !s.agent.Open?)
    && (s.agentClosed ==> forall sid :: sid in s.sessions && s.sessions[sid].registered ==> sid in s.snapshot)
    && (forall sid :: sid in s.snapshot ==> sid in s.sessions)
    && (s.agent.Requesting? ==>
          && s.agent.todo <= s.snapshot
          && forall sid :: sid in s.snapshot && sid !in s.agent.todo ==>
               s.sessions[sid].closed && (s.sessions[sid].active == s.agent.toCancel || Cancelled(s, s.sessions[sid].active)))
    && (s.agent.Joining? || s.agent.CloseReturned? ==>
          forall sid :: sid in s.snapshot ==> s.sessions[sid].closed && Cancelled(s, s.sessions[sid].active))
    && (s.agent.Joining? ==>
          && s.agent.todo <= s.snapshot
          && (s.agent.current.Some? ==>
                s.agent.current.value in s.closers && s.closers[s.agent.current.value].session in s.agent.todo)
          && forall sid :: sid in s.snapshot && sid !in s.agent.todo ==>
               s.sessions[sid].active.None? && StartedUp(s.sessions[sid].start))
    && (s.agent.CloseReturned? ==>
          forall sid :: sid in s.snapshot ==> s.sessions[sid].active.None? && StartedUp(s.sessions[sid].start))
  }

  // ---------------------------------------------------------------------------
  // What no step ever undoes
  // ---------------------------------------------------------------------------

  ghost predicate SessionEvolves(y: Session, z: Session) {
    && (y.closed ==> z.closed && (z.active == y.active || z.active.None?))
    && (y.startOK ==> z.startOK)
    && (StartedUp(y.start) ==> StartedUp(z.start) && z.startOK == y.startOK)
    && (y.endOnce.Complete? ==> z.endOnce.Complete?)
    && y.endRuns <= z.endRuns
    && (z.registered ==> y.registered)
  }

  ghost predicate SessionsEvolve(s: State, t: State) {
    && (s.agentClosed ==> t.agentClosed)
    && (forall sid :: sid in s.sessions ==> sid in t.sessions && SessionEvolves(s.sessions[sid], t.sessions[sid]))
    && (forall sid :: sid in t.sessions && sid !in s.sessions ==> !s.agentClosed)
    && (forall sid :: sid in t.sessions && t.sessions[sid].start == Returned(true) ==>
          !s.agentClosed || (sid in s.sessions && s.sessions[sid].start == Returned(true)))
    && (forall c :: c in s.closers ==> c in t.closers && t.closers[c].session == s.closers[c].session)
  }

  ghost predicate RunsEvolve(s: State, t: State) {
    && (forall r :: r in s.runs ==>
          && r in t.runs && t.runs[r].session == s.runs[r].session
          && (s.runs[r].cancelled ==> t.runs[r].cancelled) && (s.runs[r].pc == Done ==> t.runs[r].pc == Done))
    && (forall r :: r in t.runs && r !in s.runs ==> t.runs[r].session in s.sessions && !s.sessions[t.runs[r].session].closed)
    && (forall r :: r in t.runs && t.runs[r].pc == Running ==> !s.agentClosed || (r in s.runs && s.runs[r].pc == Running))
  }

  ghost predicate Evolves(s: State, t: State) {
    SessionsEvolve(s, t) && RunsEvolve(s, t)
  }

  /** Runs that differ at most by being cancelled. */
  predicate SameButCancelled(a: map<nat, Run>, b: map<nat, Run>) {
    a.Keys == b.Keys && forall r :: r in a ==> b[r] == a[r].(cancelled := b[r].cancelled) && (a[r].cancelled ==> b[r].cancelled)
  }


  predicate SameAgent(s: State, t: State) {
    t.agent == s.agent && t.agentClosed == s.agentClosed && t.snapshot == s.snapshot
  }

  /** No slot is taken or given back, and no run does more than being cancelled. */
  ghost predicate Calm(s: State, t: State) {
    SameButCancelled(s.runs, t.runs) && t.slots == s.slots
  }

  lemma SessionCalm(s: State, m: SessionMove)
    requires SessionCan(s, m)
    ensures var t := SessionDoes(s, m); SameAgent(s, t) && Calm(s, t) && t.closers == s.closers
  {
  }

  lemma EvolveSession(s: State, m: SessionMove)
    requires SessionCan(s, m)
    ensures var t := SessionDoes(s, m); SessionsEvolve(s, t) && SameAgent(s, t) && Calm(s, t)
  {
    SessionCalm(s, m);
    hide SameAgent, Calm;
  }

  /** The moves that change which runs there are, and which are done. */
  lemma EvolveHandover(capacity: nat, s: State, m: RunMove)
    requires RunCan(capacity, s, m) && (m.StartReserves? || m.Finish?)
    ensures var t := RunDoes(capacity, s, m); SessionsEvolve(s, t) && RunsEvolve(s, t) && SameAgent(s, t)
  {
  }

  lemma EvolveRun(capacity: nat, s: State, m: RunMove)
    requires RunCan(capacity, s, m)
    ensures var t := RunDoes(capacity, s, m); SessionsEvolve(s, t) && RunsEvolve(s, t) && SameAgent(s, t)
  {
    if m.StartReserves? || m.Finish? {
      hide RunCan, RunDoes, SessionsEvolve, RunsEvolve, SameAgent;
      EvolveHandover(capacity, s, m);
    }
  }

  /** The moves by which SessionEnd fires. */
  lemma EvolveHook(s: State, m: CloserMove)
    requires CloserCan(s, m) && (m.EnterOnce? || m.EndHookReturns?)
    ensures var t := CloserDoes(s, m); SessionsEvolve(s, t) && SameAgent(s, t) && Calm(s, t)
  {
  }

  lemma EvolveCloser(s: State, m: CloserMove)
    requires CloserCan(s, m)
    ensures var t := CloserDoes(s, m); SessionsEvolve(s, t) && SameAgent(s, t) && Calm(s, t)
  {
    if m.EnterOnce? || m.EndHookReturns? {
      hide CloserCan, CloserDoes, SessionsEvolve, Calm, SameAgent;
      EvolveHook(s, m);
    }
  }

  lemma EvolveAgent(s: State, m: AgentMove)
    requires AgentCan(s, m)
    ensures var t := AgentDoes(s, m); SessionsEvolve(s, t) && Calm(s, t)
  {
  }

  lemma CalmRuns(s: State, t: State)
    requires Calm(s, t)
    ensures RunsEvolve(s, t)
  {
  }

  lemma StepEvolves(capacity: nat, s: State, step: Step)
    requires Enabled(capacity, s, step)
    ensures var t := Apply(capacity, s, step);
            Evolves(s, t) && (!step.OfAgent? ==> SameAgent(s, t)) && (!step.OfRun? ==> Calm(s, t))
  {
    hide SessionCan, SessionDoes, RunCan, RunDoes, CloserCan, CloserDoes, AgentCan, AgentDoes, SessionsEvolve, RunsEvolve, SameAgent, Calm;
    match step {
      case OfSession(m) => EvolveSession(s, m);
      case OfRun(m) => EvolveRun(capacity, s, m);
      case OfCloser(m) => EvolveCloser(s, m);
      case OfAgent(m) => EvolveAgent(s, m);
    }
    if !step.OfRun? {
      CalmRuns(s, Apply(capacity, s, step));
    }
  }

  ghost predicate Inv(capacity: nat, s: State) {
    Slots(capacity, s) && Runs(s) && Active(s) && Sessions(s) && Closers(s) && Closing(s)
  }

  lemma {:induction false} Reachable(capacity: nat, run: seq<State>, n: nat)
    requires Execution(capacity, run) && n < |run|
    ensures Inv(capacity, run[n])
  {
    hide Enabled, Apply, Inv;
    if n == 0 {
      FreshInv(capacity);
    } else {
      Reachable(capacity, run, n - 1);
      assert Next(capacity, run[n - 1], run[n - 1 + 1]);
      var step :| Enabled(capacity, run[n - 1], step) && run[n] == Apply(capacity, run[n - 1], step);
      KeepsInv(capacity, run[n - 1], step);
    }
  }

  // ---------------------------------------------------------------------------
  // Every step keeps the invariant
  // ---------------------------------------------------------------------------

  function HeldAfter(s: State, m: RunMove): set<nat> {
    match m
    case AcquireSlot(r) => Holding(s.runs) + {r}
    case Finish(r) => Holding(s.runs) - {r}
    case _ => Holding(s.runs)
  }

  lemma HoldingMoves(capacity: nat, s: State, m: RunMove)
    requires RunCan(capacity, s, m)
    ensures Holding(RunDoes(capacity, s, m).runs) == HeldAfter(s, m)
  {
    var t := RunDoes(capacity, s, m);
    forall r ensures r in Holding(t.runs) <==> r in HeldAfter(s, m) {
    }
  }

  lemma SlotsRun(capacity: nat, s: State, m: RunMove)
    requires RunCan(capacity, s, m) && Slots(capacity, s) && Runs(s)
    ensures Slots(capacity, RunDoes(capacity, s, m))
  {
    HoldingMoves(capacity, s, m);
    assert m.AcquireSlot? ==> m.r !in Holding(s.runs);
    assert m.Finish? ==> (m.r in Holding(s.runs) <==> s.runs[m.r].hasCapacity);
  }

  lemma CalmKeeps(capacity: nat, s: State, t: State)
    requires Slots(capacity, s) && Runs(s) && Calm(s, t)
    ensures Slots(capacity, t) && Runs(t)
  {
    assert Holding(t.runs) == Holding(s.runs);
  }

  lemma RunsRun(capacity: nat, s: State, m: RunMove)
    requires RunCan(capacity, s, m) && Runs(s)
    ensures Runs(RunDoes(capacity, s, m))
  {
  }

  lemma ActiveSession(s: State, m: SessionMove)
    requires SessionCan(s, m) && Active(s)
    ensures Active(SessionDoes(s, m))
  {
  }

  lemma ActiveHandover(capacity: nat, s: State, m: RunMove)
    requires RunCan(capacity, s, m) && Active(s) && (m.StartReserves? || m.Finish?)
    ensures Active(RunDoes(capacity, s, m))
  {
  }

  /** Other moves of a run neither create it nor end it. */
  lemma RunGoesOn(capacity: nat, s: State, m: RunMove)
    requires RunCan(capacity, s, m) && !m.StartReserves? && !m.Finish?
    ensures var t := RunDoes(capacity, s, m);
            && t.sessions == s.sessions && t.runs.Keys == s.runs.Keys
            && forall r :: r in s.runs ==>
                 t.runs[r].session == s.runs[r].session && (t.runs[r].pc == Done <==> s.runs[r].pc == Done)
  {
  }

  lemma ActiveRun(capacity: nat, s: State, m: RunMove)
    requires RunCan(capacity, s, m) && Active(s)
    ensures Active(RunDoes(capacity, s, m))
  {
    if m.StartReserves? || m.Finish? {
      hide RunCan, RunDoes, Active;
      ActiveHandover(capacity, s, m);
    } else {
      RunGoesOn(capacity, s, m);
      hide RunCan, RunDoes;
    }
  }

  lemma ActiveCloser(s: State, m: CloserMove)
    requires CloserCan(s, m) && Active(s)
    ensures Active(CloserDoes(s, m))
  {
  }

  lemma ActiveAgent(s: State, m: AgentMove)
    requires AgentCan(s, m) && Active(s)
    ensures Active(AgentDoes(s, m))
  {
  }

  lemma SessionsSession(s: State, m: SessionMove)
    requires SessionCan(s, m) && Sessions(s)
    ensures Sessions(SessionDoes(s, m))
  {
  }

  lemma SessionsRun(capacity: nat, s: State, m: RunMove)
    requires RunCan(capacity, s, m) && Active(s) && Sessions(s) && Closers(s)
    ensures Sessions(RunDoes(capacity, s, m))
  {
  }

  lemma SessionsCloser(s: State, m: CloserMove)
    requires CloserCan(s, m) && Active(s) && Sessions(s) && Closers(s)
    ensures Sessions(CloserDoes(s, m))
  {
  }

  lemma SessionsAgent(s: State, m: AgentMove)
    requires AgentCan(s, m) && Sessions(s)
    ensures Sessions(AgentDoes(s, m))
  {
  }

  /** A caller of Close that does not move stays right, because nothing it relies on is ever undone. */
  lemma CloserStays(s: State, t: State, x: Closer)
    requires CloserOk(s, x) && Evolves(s, t)
    ensures CloserOk(t, x)
  {
  }

  /** So it is enough to look at the one that moves. */
  lemma OneCloserMoves(s: State, t: State, c: nat)
    requires Closers(s) && Evolves(s, t) && c in t.closers && CloserOk(t, t.closers[c])
    requires forall d :: d in t.closers && d != c ==> d in s.closers && t.closers[d] == s.closers[d]
    ensures Closers(t)
  {
    hide CloserOk, Evolves;
    forall d | d in t.closers && d != c ensures CloserOk(t, t.closers[d]) {
      CloserStays(s, t, s.closers[d]);
    }
  }

  lemma NoCloserMoves(s: State, t: State)
    requires Closers(s) && Evolves(s, t) && t.closers == s.closers
    ensures Closers(t)
  {
    hide CloserOk, Evolves;
    forall d | d in t.closers ensures CloserOk(t, t.closers[d]) {
      CloserStays(s, t, s.closers[d]);
    }
  }

  lemma ClosersSession(s: State, m: SessionMove)
    requires SessionCan(s, m) && Closers(s)
    requires Evolves(s, SessionDoes(s, m))
    ensures Closers(SessionDoes(s, m))
  {
    hide Closers, Evolves;
    NoCloserMoves(s, SessionDoes(s, m));
  }

  lemma ClosersRun(capacity: nat, s: State, m: RunMove)
    requires RunCan(capacity, s, m) && Closers(s)
    requires Evolves(s, RunDoes(capacity, s, m))
    ensures Closers(RunDoes(capacity, s, m))
  {
    hide Closers, Evolves;
    NoCloserMoves(s, RunDoes(capacity, s, m));
  }

  lemma MovedCloser(s: State, m: CloserMove)
    requires CloserCan(s, m) && Active(s) && Closers(s)
    ensures var t := CloserDoes(s, m); m.c in t.closers && CloserOk(t, t.closers[m.c])
  {
  }

  lemma OtherClosers(s: State, m: CloserMove)
    requires CloserCan(s, m)
    ensures var t := CloserDoes(s, m);
            forall d :: d in t.closers && d != m.c ==> d in s.closers && t.closers[d] == s.closers[d]
  {
  }

  lemma ClosersCloser(s: State, m: CloserMove)
    requires CloserCan(s, m) && Active(s) && Closers(s)
    requires Evolves(s, CloserDoes(s, m))
    ensures Closers(CloserDoes(s, m))
  {
    hide CloserCan, CloserDoes, Closers, Active, Evolves, CloserOk;
    MovedCloser(s, m);
    OtherClosers(s, m);
    OneCloserMoves(s, CloserDoes(s, m), m.c);
  }

  /** The agent calls Close on a session: a caller like any other. */
  lemma AgentCalls(s: State, m: AgentMove)
    requires AgentCan(s, m) && m.JoinNext? && Active(s)
    ensures var t := AgentDoes(s, m);
            && m.c in t.closers && CloserOk(t, t.closers[m.c])
            && forall d :: d in t.closers && d != m.c ==> d in s.closers && t.closers[d] == s.closers[d]
  {
  }

  lemma ClosersAgent(s: State, m: AgentMove)
    requires AgentCan(s, m) && Active(s) && Closers(s)
    requires Evolves(s, AgentDoes(s, m))
    ensures Closers(AgentDoes(s, m))
  {
    hide Closers, Active, Evolves, CloserOk;
    if m.JoinNext? {
      AgentCalls(s, m);
      OneCloserMoves(s, AgentDoes(s, m), m.c);
    } else {
      NoCloserMoves(s, AgentDoes(s, m));
    }
  }

  /** Steps outside Agent.Close leave its bookkeeping right. */
  lemma ClosingFrame(s: State, t: State)
    requires Active(s) && Closing(s) && Evolves(s, t)
    requires SameAgent(s, t)
    ensures Closing(t)
  {
  }

  lemma ClosingAgent(s: State, m: AgentMove)
    requires AgentCan(s, m) && Active(s) && Closers(s) && Closing(s)
    ensures Closing(AgentDoes(s, m))
  {
    hide AgentCan, AgentDoes, Active, Closers, Closing;
    if m.RequestNext? || m.CancelNext? {
      ClosingRequest(s, m);
    } else if m.JoinNext? || m.JoinedOne? {
      ClosingJoin(s, m);
    } else {
      ClosingBegin(s, m);
    }
  }

  lemma ClosingBegin(s: State, m: AgentMove)
    requires AgentCan(s, m) && (m.AgentCloses? || m.AllRequested? || m.AgentCloseReturns?)
    requires Active(s) && Closers(s) && Closing(s)
    ensures Closing(AgentDoes(s, m))
  {
  }

  lemma ClosingRequest(s: State, m: AgentMove)
    requires AgentCan(s, m) && (m.RequestNext? || m.CancelNext?) && Active(s) && Closing(s)
    ensures Closing(AgentDoes(s, m))
  {
  }

  lemma ClosingJoin(s: State, m: AgentMove)
    requires AgentCan(s, m) && (m.JoinNext? || m.JoinedOne?) && Active(s) && Closers(s) && Closing(s)
    ensures Closing(AgentDoes(s, m))
  {
  }

  lemma FreshInv(capacity: nat)
    ensures Inv(capacity, Fresh)
  {
  }

  /** Every step of every participant keeps all six. */
  lemma KeepsInv(capacity: nat, s: State, step: Step)
    requires Enabled(capacity, s, step) && Inv(capacity, s)
    ensures Inv(capacity, Apply(capacity, s, step))
  {
    hide SessionCan, SessionDoes, RunCan, RunDoes, CloserCan, CloserDoes, AgentCan, AgentDoes,
         Slots, Runs, Active, Sessions, Closers, Closing, Evolves, SameAgent, SameButCancelled;
    var t := Apply(capacity, s, step);
    StepEvolves(capacity, s, step);
    if !step.OfRun? {
      CalmKeeps(capacity, s, t);
    }
    if !step.OfAgent? {
      ClosingFrame(s, t);
    }
    match step {
      case OfSession(m) =>
        ActiveSession(s, m);
        SessionsSession(s, m);
        ClosersSession(s, m);
      case OfRun(m) =>
        SlotsRun(capacity, s, m);
        RunsRun(capacity, s, m);
        ActiveRun(capacity, s, m);
        SessionsRun(capacity, s, m);
        ClosersRun(capacity, s, m);
      case OfCloser(m) =>
        ActiveCloser(s, m);
        SessionsCloser(s, m);
        ClosersCloser(s, m);
      case OfAgent(m) =>
        ActiveAgent(s, m);
        SessionsAgent(s, m);
        ClosersAgent(s, m);
        ClosingAgent(s, m);
    }
  }
}
