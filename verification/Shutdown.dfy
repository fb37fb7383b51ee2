/** How Agent.Close comes to its end, and which runs can outlive it (agent/agent.go, agent/session.go).

    From any reachable state, before Agent.Close and at any point within it, there is a way to its return.
    It moves only the sessions that Agent.Close takes down, so a run of any other session stays as it is. */
module Shutdown {
  import opened Types
  import opened Lifecycle
  import opened Guarantees

  // ---------------------------------------------------------------------------
  // A session that is firing SessionEnd has a caller of Close in the hook
  // ---------------------------------------------------------------------------

  predicate InHookOf(s: State, sid: nat, c: nat) {
    c in s.closers && s.closers[c] == Closer(sid, InHook)
  }

  ghost predicate Hooked(s: State) {
    forall sid :: sid in s.sessions && s.sessions[sid].endOnce.InProgress? ==> exists c :: InHookOf(s, sid, c)
  }

  lemma HookedStays(s: State, t: State)
    requires Hooked(s)
    requires forall sid :: sid in t.sessions && t.sessions[sid].endOnce.InProgress? ==>
               sid in s.sessions && s.sessions[sid].endOnce.InProgress?
    requires forall c :: c in s.closers && s.closers[c].pc.InHook? ==> c in t.closers && t.closers[c] == s.closers[c]
    ensures Hooked(t)
  {
    forall sid | sid in t.sessions && t.sessions[sid].endOnce.InProgress? ensures exists c :: InHookOf(t, sid, c) {
      var c :| InHookOf(s, sid, c);
      assert InHookOf(t, sid, c);
    }
  }

  lemma HookedSession(s: State, m: SessionMove)
    requires SessionCan(s, m) && Hooked(s)
    ensures Hooked(SessionDoes(s, m))
  {
    hide Hooked;
    HookedStays(s, SessionDoes(s, m));
  }

  lemma HookedRun(capacity: nat, s: State, m: RunMove)
    requires RunCan(capacity, s, m) && Hooked(s) && Active(s)
    ensures Hooked(RunDoes(capacity, s, m))
  {
    hide Hooked;
    HookedStays(s, RunDoes(capacity, s, m));
  }

  lemma HookedAgent(s: State, m: AgentMove)
    requires AgentCan(s, m) && Hooked(s)
    ensures Hooked(AgentDoes(s, m))
  {
    hide Hooked;
    HookedStays(s, AgentDoes(s, m));
  }

  lemma HookedCloser(s: State, m: CloserMove)
    requires CloserCan(s, m) && Hooked(s)
    ensures Hooked(CloserDoes(s, m))
  {
    var t := CloserDoes(s, m);
    if m.EnterOnce? || m.EndHookReturns? {
      HookMoves(s, m);
    } else {
      hide Hooked;
      HookedStays(s, t);
    }
  }

  lemma HookMoves(s: State, m: CloserMove)
    requires CloserCan(s, m) && Hooked(s) && (m.EnterOnce? || m.EndHookReturns?)
    ensures Hooked(CloserDoes(s, m))
  {
    var t := CloserDoes(s, m);
    var own := s.closers[m.c].session;
    forall sid | sid in t.sessions && t.sessions[sid].endOnce.InProgress? ensures exists c :: InHookOf(t, sid, c) {
      if sid == own {
        assert InHookOf(t, sid, m.c);
      } else {
        var c :| InHookOf(s, sid, c);
        assert InHookOf(t, sid, c);
      }
    }
  }

  // ---------------------------------------------------------------------------
  // Whoever is to cancel or join a run remembers a run of its own session
  // ---------------------------------------------------------------------------

  predicate RunOf(s: State, q: nat, sid: nat) {
    q in s.runs && s.runs[q].session == sid
  }

  ghost predicate Remembered(s: State) {
    && (forall c :: c in s.closers && (s.closers[c].pc.ToCancel? || s.closers[c].pc.WaitRun?) && s.closers[c].pc.run.Some? ==>
          RunOf(s, s.closers[c].pc.run.value, s.closers[c].session))
    && (s.agent.Requesting? && s.agent.toCancel.Some? ==>
          s.agent.toCancel.value in s.runs && s.runs[s.agent.toCancel.value].session in s.snapshot)
  }

  lemma RememberedRun(capacity: nat, s: State, m: RunMove)
    requires RunCan(capacity, s, m) && Remembered(s)
    ensures Remembered(RunDoes(capacity, s, m))
  {
  }

  lemma RememberedCloser(s: State, m: CloserMove)
    requires CloserCan(s, m) && Remembered(s) && Active(s)
    ensures Remembered(CloserDoes(s, m))
  {
  }

  lemma RememberedAgent(s: State, m: AgentMove)
    requires AgentCan(s, m) && Remembered(s) && Active(s) && Closing(s)
    ensures Remembered(AgentDoes(s, m))
  {
  }

  lemma RememberedSession(s: State, m: SessionMove)
    requires SessionCan(s, m) && Remembered(s)
    ensures Remembered(SessionDoes(s, m))
  {
  }

  /** The invariant of every reachable state, with the two above. */
  ghost predicate Good(capacity: nat, s: State) {
    Inv(capacity, s) && Hooked(s) && Remembered(s)
  }

  lemma Parts(capacity: nat, s: State)
    requires Good(capacity, s)
    ensures Slots(capacity, s) && Runs(s) && Active(s) && Sessions(s) && Closers(s) && Closing(s)
    ensures Hooked(s) && Remembered(s)
  {
    hide Slots, Runs, Active, Sessions, Closers, Closing, Hooked, Remembered;
  }

  lemma KeepsGood(capacity: nat, s: State, step: Step)
    requires Enabled(capacity, s, step) && Good(capacity, s)
    ensures Good(capacity, Apply(capacity, s, step))
  {
    hide SessionCan, SessionDoes, RunCan, RunDoes, CloserCan, CloserDoes, AgentCan, AgentDoes,
         Active, Closing, Hooked, Remembered, Inv;
    Parts(capacity, s);
    KeepsInv(capacity, s, step);
    match step {
      case OfSession(m) =>
        HookedSession(s, m);
        RememberedSession(s, m);
      case OfRun(m) =>
        HookedRun(capacity, s, m);
        RememberedRun(capacity, s, m);
      case OfCloser(m) =>
        HookedCloser(s, m);
        RememberedCloser(s, m);
      case OfAgent(m) =>
        HookedAgent(s, m);
        RememberedAgent(s, m);
    }
  }

  lemma {:induction false} AlwaysGood(capacity: nat, run: seq<State>, n: nat)
    requires Execution(capacity, run) && n < |run|
    ensures Good(capacity, run[n])
  {
    hide Enabled, Apply, Inv;
    if n == 0 {
      FreshInv(capacity);
    } else {
      AlwaysGood(capacity, run, n - 1);
      assert Next(capacity, run[n - 1], run[n - 1 + 1]);
      var step :| Enabled(capacity, run[n - 1], step) && run[n] == Apply(capacity, run[n - 1], step);
      KeepsGood(capacity, run[n - 1], step);
    }
  }

  // ---------------------------------------------------------------------------
  // Ways from one state to another
  // ---------------------------------------------------------------------------

  ghost predicate Path(capacity: nat, path: seq<State>) {
    |path| > 0 && forall k :: 0 <= k < |path| - 1 ==> Next(capacity, path[k], path[k + 1])
  }

  ghost predicate Leads(capacity: nat, s: State, t: State) {
    exists path :: Path(capacity, path) && path[0] == s && path[|path| - 1] == t
  }

  lemma JoinPaths(capacity: nat, a: seq<State>, b: seq<State>)
    requires Path(capacity, a) && Path(capacity, b) && a[|a| - 1] == b[0]
    ensures Path(capacity, a + b[1..]) && (a + b[1..])[|a + b[1..]| - 1] == b[|b| - 1]
  {
    hide Next;
    var c := a + b[1..];
    forall k | 0 <= k < |c| - 1 ensures Next(capacity, c[k], c[k + 1]) {
      if k < |a| - 1 {
        assert Next(capacity, a[k], a[k + 1]);
      } else {
        var j := k - (|a| - 1);
        assert Next(capacity, b[j], b[j + 1]);
      }
    }
  }

  lemma LeadsOn(capacity: nat, s: State, t: State, u: State)
    requires Leads(capacity, s, t) && Leads(capacity, t, u)
    ensures Leads(capacity, s, u)
  {
    hide Next;
    var a :| Path(capacity, a) && a[0] == s && a[|a| - 1] == t;
    var b :| Path(capacity, b) && b[0] == t && b[|b| - 1] == u;
    JoinPaths(capacity, a, b);
  }

  /** Nothing has changed that belongs to a session which the closing agent does not take down. */
  ghost predicate Outside(s: State, t: State) {
    && t.agentClosed == s.agentClosed && t.snapshot == s.snapshot && t.sessions.Keys == s.sessions.Keys
    && (forall x :: x in s.sessions && x !in s.snapshot ==> t.sessions[x] == s.sessions[x])
    && (forall q :: q in s.runs && s.runs[q].session !in s.snapshot ==> q in t.runs && t.runs[q] == s.runs[q])
  }

  ghost predicate Onward(capacity: nat, s: State, t: State) {
    Leads(capacity, s, t) && Good(capacity, t) && Outside(s, t)
  }

  lemma OutsideOn(s: State, t: State, u: State)
    requires Outside(s, t) && Outside(t, u)
    ensures Outside(s, u)
  {
  }

  /** A session that the closing agent takes down. */
  predicate Known(s: State, sid: nat) {
    sid in s.snapshot && sid in s.sessions
  }

  /** A step that concerns session sid, which the agent takes down, or no session at all. */
  predicate About(s: State, step: Step, sid: nat) {
    if step.OfAgent? && (step.agent.AllRequested? || step.agent.JoinedOne? || step.agent.AgentCloseReturns?) then true
    else
      && Known(s, sid)
      && match step
         case OfSession(m) => (m.StartRefuses? || m.HookSucceeds? || m.FailureCloses? || m.CloseStartDone?) && m.sid == sid
         case OfRun(m) => !m.StartReserves? && RunOf(s, m.r, sid)
         case OfCloser(m) =>
           && !m.RequestClose? && m.c in s.closers && s.closers[m.c].session == sid
           && (m.CloserCancels? && s.closers[m.c].pc.ToCancel? && s.closers[m.c].pc.run.Some? ==>
                 RunOf(s, s.closers[m.c].pc.run.value, sid))
         case OfAgent(m) =>
           if m.RequestNext? || m.JoinNext? then m.sid == sid
           else m.CancelNext? && s.agent.Requesting?
                && (s.agent.toCancel.Some? ==> RunOf(s, s.agent.toCancel.value, sid))
  }

  lemma AboutSession(s: State, m: SessionMove, sid: nat)
    requires SessionCan(s, m) && About(s, OfSession(m), sid)
    ensures Outside(s, SessionDoes(s, m))
  {
  }

  lemma AboutRun(capacity: nat, s: State, m: RunMove, sid: nat)
    requires RunCan(capacity, s, m) && About(s, OfRun(m), sid)
    ensures Outside(s, RunDoes(capacity, s, m))
  {
  }

  lemma AboutCloser(s: State, m: CloserMove, sid: nat)
    requires CloserCan(s, m) && About(s, OfCloser(m), sid)
    ensures Outside(s, CloserDoes(s, m))
  {
  }

  lemma AboutAgent(s: State, m: AgentMove, sid: nat)
    requires AgentCan(s, m) && About(s, OfAgent(m), sid)
    ensures Outside(s, AgentDoes(s, m))
  {
  }

  lemma GoOn(capacity: nat, s0: State, s: State, step: Step, sid: nat) returns (t: State)
    requires Onward(capacity, s0, s) && Enabled(capacity, s, step) && About(s, step, sid)
    ensures t == Apply(capacity, s, step) && Onward(capacity, s0, t)
  {
    hide SessionCan, SessionDoes, RunCan, RunDoes, CloserCan, CloserDoes, AgentCan, AgentDoes, Good, Leads, Outside, About;
    t := Apply(capacity, s, step);
    match step {
      case OfSession(m) => AboutSession(s, m, sid);
      case OfRun(m) => AboutRun(capacity, s, m, sid);
      case OfCloser(m) => AboutCloser(s, m, sid);
      case OfAgent(m) => AboutAgent(s, m, sid);
    }
    OutsideOn(s0, s, t);
    KeepsGood(capacity, s, step);
    assert Leads(capacity, s, t) by {
      OneStep(capacity, s, step);
    }
    LeadsOn(capacity, s0, s, t);
  }

  lemma OneStep(capacity: nat, s: State, step: Step)
    requires Enabled(capacity, s, step)
    ensures Leads(capacity, s, Apply(capacity, s, step))
  {
    hide Enabled, Apply;
    var t := Apply(capacity, s, step);
    var path := [s, t];
    assert Next(capacity, s, t);
    assert Path(capacity, path) && path[0] == s && path[|path| - 1] == t;
  }

  // ---------------------------------------------------------------------------
  // Bringing one session to rest
  // ---------------------------------------------------------------------------

  /** A Start that holds the lock gives up. */
  lemma Unlock(capacity: nat, s0: State, s: State, sid: nat) returns (t: State)
    requires Onward(capacity, s0, s) && Known(s, sid)
    ensures Onward(capacity, s0, t) && t == SetSession(s, sid, s.sessions[sid].(locked := false))
  {
    hide Onward;
    if s.sessions[sid].locked {
      t := GoOn(capacity, s0, s, OfSession(StartRefuses(sid)), sid);
    } else {
      t := s;
      assert s.sessions[sid := s.sessions[sid].(locked := false)] == s.sessions;
    }
  }

  /** A live run of a closed agent's session can always get to complete. */
  lemma ToCompleting(capacity: nat, s0: State, s: State, sid: nat, q: nat) returns (t: State)
    requires Onward(capacity, s0, s) && Known(s, sid) && !s.sessions[sid].locked && s.agentClosed
    requires q in s.runs && s.runs[q].session == sid && s.runs[q].pc != Done
    ensures Onward(capacity, s0, t)
    ensures q in t.runs && t == s.(runs := s.runs[q := t.runs[q]])
    ensures t.runs[q].pc == Completing && t.runs[q].session == sid
  {
    hide Onward;
    t := s;
    if t.runs[q].pc == WaitingSlot {
      t := GoOn(capacity, s0, t, OfRun(CancelRun(q)), sid);
      t := GoOn(capacity, s0, t, OfRun(StopWaiting(q)), sid);
    }
    assert t == s.(runs := s.runs[q := t.runs[q]]);
    if t.runs[q].pc == PastSelect {
      t := GoOn(capacity, s0, t, OfRun(Recheck(q)), sid);
    } else if t.runs[q].pc == Running {
      t := GoOn(capacity, s0, t, OfRun(RunEnds(q)), sid);
    }
    assert t == s.(runs := s.runs[q := t.runs[q]]);
  }

  lemma HolderHasSlot(capacity: nat, s: State, q: nat)
    requires Slots(capacity, s) && q in s.runs && s.runs[q].hasCapacity && s.runs[q].pc != Done
    ensures s.slots > 0
  {
    assert q in Holding(s.runs);
  }

  lemma EndRun(capacity: nat, s0: State, s: State, sid: nat) returns (t: State)
    requires Onward(capacity, s0, s) && Known(s, sid) && !s.sessions[sid].locked && s.agentClosed
    ensures Onward(capacity, s0, t)
    ensures t.sessions == s.sessions[sid := s.sessions[sid].(active := None)]
    ensures t.agent == s.agent && t.closers == s.closers
  {
    hide Slots, Runs, Sessions, Closers, Closing, Hooked, Remembered;
    assert Active(s) by {
      OnwardParts(capacity, s0, s);
    }
    hide Onward;
    if s.sessions[sid].active.None? {
      t := s;
      assert s.sessions[sid := s.sessions[sid].(active := None)] == s.sessions;
    } else {
      var q := s.sessions[sid].active.value;
      var u := ToCompleting(capacity, s0, s, sid, q);
      if u.runs[q].hasCapacity {
        OnwardParts(capacity, s0, u);
        HolderHasSlot(capacity, u, q);
      }
      t := GoOn(capacity, s0, u, OfRun(Finish(q)), sid);
    }
  }

  lemma OnwardParts(capacity: nat, s0: State, s: State)
    requires Onward(capacity, s0, s)
    ensures Slots(capacity, s) && Runs(s) && Active(s) && Sessions(s) && Closers(s) && Closing(s)
    ensures Hooked(s) && Remembered(s) && Outside(s0, s)
  {
    hide Slots, Runs, Active, Sessions, Closers, Closing, Hooked, Remembered, Inv, Leads, Outside;
    Parts(capacity, s);
  }

  /** The SessionStart hook returns, or its failure is recorded. */
  lemma PastHook(capacity: nat, s0: State, s: State, sid: nat) returns (t: State)
    requires Onward(capacity, s0, s) && Known(s, sid) && !s.sessions[sid].locked
    ensures Onward(capacity, s0, t) && Known(t, sid) && OnlyStarted(s, t, sid)
    ensures t.sessions[sid].start.Recorded? || StartedUp(t.sessions[sid].start)
  {
    hide Onward;
    if s.sessions[sid].start.Hooking? {
      t := GoOn(capacity, s0, s, OfSession(HookSucceeds(sid)), sid);
    } else if s.sessions[sid].start.Failing? {
      t := GoOn(capacity, s0, s, OfSession(FailureCloses(sid)), sid);
    } else {
      t := s;
      assert s.sessions[sid := s.sessions[sid]] == s.sessions;
    }
  }

  /** Nothing but how far the session has come in newSession, and whether it is closed. */
  ghost predicate OnlyStarted(s: State, t: State, sid: nat)
    requires sid in s.sessions
  {
    && sid in t.sessions && t == SetSession(s, sid, t.sessions[sid])
    && t.sessions[sid] == s.sessions[sid].(start := t.sessions[sid].start, startOK := t.sessions[sid].startOK,
                                           closed := t.sessions[sid].closed)
  }

  /** newSession goes past its SessionStart hook, whether that has failed or not. */
  lemma StartUp(capacity: nat, s0: State, s: State, sid: nat) returns (t: State)
    requires Onward(capacity, s0, s) && Known(s, sid) && !s.sessions[sid].locked
    ensures Onward(capacity, s0, t) && Known(t, sid) && OnlyStarted(s, t, sid) && StartedUp(t.sessions[sid].start)
  {
    hide Onward;
    t := PastHook(capacity, s0, s, sid);
    if t.sessions[sid].start.Recorded? {
      t := GoOn(capacity, s0, t, OfSession(CloseStartDone(sid)), sid);
    }
  }

  /** A SessionEnd hook in progress returns. */
  lemma LeaveHook(capacity: nat, s0: State, s: State, sid: nat) returns (t: State)
    requires Onward(capacity, s0, s) && Known(s, sid)
    ensures Onward(capacity, s0, t) && sid in t.sessions && !t.sessions[sid].endOnce.InProgress? && t.agent == s.agent
    ensures t.sessions == s.sessions[sid := s.sessions[sid].(endOnce := t.sessions[sid].endOnce)]
    ensures SameCallers(s, t)
  {
    hide Slots, Runs, Active, Sessions, Closers, Closing, Remembered, Outside;
    OnwardParts(capacity, s0, s);
    hide Onward;
    if s.sessions[sid].endOnce.InProgress? {
      var c :| InHookOf(s, sid, c);
      t := GoOn(capacity, s0, s, OfCloser(EndHookReturns(c)), sid);
    } else {
      t := s;
      assert s.sessions[sid := s.sessions[sid]] == s.sessions;
    }
  }

  /** Callers of Close are still there, each for its session. */
  ghost predicate SameCallers(s: State, t: State) {
    forall c :: c in s.closers ==> c in t.closers && t.closers[c].session == s.closers[c].session
  }

  predicate AtRest(y: Session) {
    !y.locked && y.active.None? && StartedUp(y.start) && !y.endOnce.InProgress?
  }

  lemma Settle(capacity: nat, s0: State, s: State, sid: nat) returns (t: State)
    requires Onward(capacity, s0, s) && Known(s, sid) && s.agentClosed
    ensures Onward(capacity, s0, t) && Known(t, sid) && AtRest(t.sessions[sid])
    ensures t.agent == s.agent && SameCallers(s, t)
  {
    hide Onward;
    var a := Unlock(capacity, s0, s, sid);
    var b := EndRun(capacity, s0, a, sid);
    OnwardEnds(capacity, s0, a);
    OnwardEnds(capacity, s0, b);
    var c := StartUp(capacity, s0, b, sid);
    t := LeaveHook(capacity, s0, c, sid);
    OnwardEnds(capacity, s0, c);
    OnwardEnds(capacity, s0, t);
  }

  // ---------------------------------------------------------------------------
  // Agent.Close
  // ---------------------------------------------------------------------------

  lemma {:induction false} Above(keys: set<nat>) returns (c: nat)
    ensures forall k :: k in keys ==> k < c
  {
    if keys == {} {
      c := 0;
    } else {
      var k :| k in keys;
      var d := Above(keys - {k});
      assert keys == (keys - {k}) + {k};
      c := if k < d then d else k + 1;
    }
  }

  /** Once the session is at rest, a caller of Close gets through to the end from wherever it stands. */
  lemma Through(capacity: nat, s0: State, s: State, sid: nat, c: nat) returns (t: State)
    requires Onward(capacity, s0, s) && Known(s, sid) && AtRest(s.sessions[sid])
    requires c in s.closers && s.closers[c].session == sid
    ensures Onward(capacity, s0, t) && c in t.closers && t.closers[c] == Closer(sid, Closed) && t.agent == s.agent
  {
    hide Onward;
    t := PastRun(capacity, s0, s, sid, c);
    if t.closers[c].pc.WaitStart? {
      t := GoOn(capacity, s0, t, OfCloser(StartJoined(c)), sid);
    }
    if t.closers[c].pc.AtOnce? {
      if t.sessions[sid].endOnce.NotYet? {
        t := GoOn(capacity, s0, t, OfCloser(EnterOnce(c)), sid);
      } else {
        t := GoOn(capacity, s0, t, OfCloser(OnceAlreadyDone(c)), sid);
      }
    }
    if t.closers[c].pc.InHook? {
      t := GoOn(capacity, s0, t, OfCloser(EndHookReturns(c)), sid);
    }
  }

  /** A caller cancels the run it remembers, if it has not, and finds it done. */
  lemma PastRun(capacity: nat, s0: State, s: State, sid: nat, c: nat) returns (t: State)
    requires Onward(capacity, s0, s) && Known(s, sid) && AtRest(s.sessions[sid])
    requires c in s.closers && s.closers[c].session == sid
    ensures Onward(capacity, s0, t) && t.sessions == s.sessions && t.agent == s.agent && t.snapshot == s.snapshot
    ensures c in t.closers && t.closers[c].session == sid && !t.closers[c].pc.ToCancel? && !t.closers[c].pc.WaitRun?
  {
    hide Slots, Runs, Sessions, Closers, Closing, Hooked, Outside;
    OnwardParts(capacity, s0, s);
    hide Onward;
    t := s;
    if t.closers[c].pc.ToCancel? {
      t := GoOn(capacity, s0, t, OfCloser(CloserCancels(c)), sid);
    }
    if t.closers[c].pc.WaitRun? {
      OnwardParts(capacity, s0, t);
      t := GoOn(capacity, s0, t, OfCloser(RunJoined(c)), sid);
    }
  }

  /** The agent joins one session more: the one it is waiting for, or the next. */
  lemma JoinOne(capacity: nat, s0: State, s: State) returns (t: State)
    requires Onward(capacity, s0, s) && s.agent.Joining? && (s.agent.current.Some? || s.agent.todo != {})
    ensures Onward(capacity, s0, t) && t.agent.Joining? && t.agent.current.None? && t.agent.todo < s.agent.todo
  {
    var sid := ToJoin(capacity, s0, s);
    hide Onward;
    var u, c := CalledAt(capacity, s0, s, sid);
    t := Through(capacity, s0, u, sid, c);
    hide Enabled, Apply, About, Known, AtRest;
    t := TakeNote(capacity, s0, t, sid, c);
    assert sid !in t.agent.todo;
  }

  lemma TakeNote(capacity: nat, s0: State, s: State, sid: nat, c: nat) returns (t: State)
    requires Onward(capacity, s0, s) && s.agent.Joining? && s.agent.current == Some(c)
    requires c in s.closers && s.closers[c] == Closer(sid, Closed)
    ensures Onward(capacity, s0, t) && t.agent == Joining(s.agent.todo - {sid}, None)
  {
    hide Onward;
    t := GoOn(capacity, s0, s, OfAgent(JoinedOne), sid);
  }

  /** The session is brought to rest, and the agent has called Close on it. */
  lemma CalledAt(capacity: nat, s0: State, s: State, sid: nat) returns (t: State, c: nat)
    requires Onward(capacity, s0, s) && s.agent.Joining? && sid in s.agent.todo && Known(s, sid) && s.agentClosed
    requires s.agent.current.Some? ==> s.agent.current.value in s.closers && s.closers[s.agent.current.value].session == sid
    ensures Onward(capacity, s0, t) && Known(t, sid) && AtRest(t.sessions[sid]) && t.agent == Joining(s.agent.todo, Some(c))
    ensures c in t.closers && t.closers[c].session == sid
  {
    hide Onward;
    t := Settle(capacity, s0, s, sid);
    if s.agent.current.Some? {
      c := s.agent.current.value;
    } else {
      c := Above(t.closers.Keys);
      assert c !in t.closers;
      t := GoOn(capacity, s0, t, OfAgent(JoinNext(sid, c)), sid);
    }
  }

  lemma ToJoin(capacity: nat, s0: State, s: State) returns (sid: nat)
    requires Onward(capacity, s0, s) && s.agent.Joining? && (s.agent.current.Some? || s.agent.todo != {})
    ensures sid in s.agent.todo && Known(s, sid) && s.agentClosed
    ensures s.agent.current.Some? ==> s.agent.current.value in s.closers && s.closers[s.agent.current.value].session == sid
  {
    hide Slots, Runs, Active, Sessions, Closers, Hooked, Remembered, Outside;
    OnwardParts(capacity, s0, s);
    if s.agent.current.Some? {
      sid := s.closers[s.agent.current.value].session;
    } else {
      sid :| sid in s.agent.todo;
    }
  }

  lemma {:induction false} JoinAll(capacity: nat, s0: State, s: State) returns (t: State)
    requires Onward(capacity, s0, s) && s.agent.Joining?
    ensures Onward(capacity, s0, t) && t.agent == Joining({}, None)
    decreases s.agent.todo
  {
    hide Onward;
    if s.agent.current.None? && s.agent.todo == {} {
      t := s;
    } else {
      t := JoinOne(capacity, s0, s);
      t := JoinAll(capacity, s0, t);
    }
  }

  /** The cancellation at hand is sent. */
  lemma SendCancel(capacity: nat, s0: State, s: State) returns (t: State)
    requires Onward(capacity, s0, s) && s.agent.Requesting?
    ensures Onward(capacity, s0, t) && t.agent == Requesting(s.agent.todo, None)
  {
    if s.agent.toCancel.None? {
      t := s;
    } else {
      hide Slots, Runs, Sessions, Closers, Hooked, Outside;
      OnwardParts(capacity, s0, s);
      hide Onward;
      t := GoOn(capacity, s0, s, OfAgent(CancelNext), s.runs[s.agent.toCancel.value].session);
    }
  }

  lemma {:induction false} RequestAll(capacity: nat, s0: State, s: State) returns (t: State)
    requires Onward(capacity, s0, s) && s.agent.Requesting?
    ensures Onward(capacity, s0, t) && t.agent == Requesting({}, None)
    decreases s.agent.todo
  {
    t := SendCancel(capacity, s0, s);
    hide Onward;
    if t.agent.todo != {} {
      t := RequestOne(capacity, s0, t);
      t := RequestAll(capacity, s0, t);
    }
  }

  /** The next session is asked to close. */
  lemma RequestOne(capacity: nat, s0: State, s: State) returns (t: State)
    requires Onward(capacity, s0, s) && s.agent.Requesting? && s.agent.toCancel.None? && s.agent.todo != {}
    ensures Onward(capacity, s0, t) && t.agent.Requesting? && t.agent.todo < s.agent.todo
  {
    var sid := ToRequest(capacity, s0, s);
    hide Onward;
    t := Unlock(capacity, s0, s, sid);
    t := GoOn(capacity, s0, t, OfAgent(RequestNext(sid)), sid);
    assert t.agent.todo == s.agent.todo - {sid};
    assert sid !in t.agent.todo;
  }

  lemma ToRequest(capacity: nat, s0: State, s: State) returns (sid: nat)
    requires Onward(capacity, s0, s) && s.agent.Requesting? && s.agent.todo != {}
    ensures sid in s.agent.todo && Known(s, sid)
  {
    hide Slots, Runs, Active, Sessions, Closers, Hooked, Remembered, Outside;
    OnwardParts(capacity, s0, s);
    sid :| sid in s.agent.todo;
  }

  lemma AllAsked(capacity: nat, s0: State, s: State) returns (t: State)
    requires Onward(capacity, s0, s) && s.agent == Requesting({}, None)
    ensures Onward(capacity, s0, t) && t.agent.Joining?
  {
    hide Onward;
    t := GoOn(capacity, s0, s, OfAgent(AllRequested), 0);
  }

  lemma AllJoined(capacity: nat, s0: State, s: State) returns (t: State)
    requires Onward(capacity, s0, s) && s.agent == Joining({}, None)
    ensures Onward(capacity, s0, t) && t.agent.CloseReturned?
  {
    hide Onward;
    t := GoOn(capacity, s0, s, OfAgent(AgentCloseReturns), 0);
  }

  /** From any point within Agent.Close, whoever else closes, starts or runs what: the way to its return. */
  lemma ClosingReturns(capacity: nat, s: State) returns (t: State)
    requires Good(capacity, s) && s.agentClosed
    ensures Onward(capacity, s, t) && t.agent.CloseReturned?
  {
    hide Path, Enabled, Apply, Inv, Hooked, Remembered;
    assert Onward(capacity, s, s) by {
      StaysThere(capacity, s);
    }
    assert !s.agent.Open? by {
      ClosedIsUnderWay(capacity, s);
    }
    hide Onward, Good;
    t := s;
    if t.agent.Requesting? {
      t := RequestAll(capacity, s, t);
      t := AllAsked(capacity, s, t);
    }
    if t.agent.Joining? {
      t := JoinAll(capacity, s, t);
      t := AllJoined(capacity, s, t);
    }
  }

  lemma ClosedIsUnderWay(capacity: nat, s: State)
    requires Good(capacity, s)
    ensures s.agentClosed <==> !s.agent.Open?
  {
    hide Slots, Runs, Active, Sessions, Closers, Hooked, Remembered;
    Parts(capacity, s);
  }

  lemma OnwardEnds(capacity: nat, s: State, t: State)
    requires Onward(capacity, s, t)
    ensures Leads(capacity, s, t) && Outside(s, t)
  {
    hide Leads, Outside, Good;
  }

  lemma StaysThere(capacity: nat, s: State)
    ensures Leads(capacity, s, s)
  {
    assert Path(capacity, [s]) && [s][0] == s;
  }

  // ---------------------------------------------------------------------------
  // The return of Agent.Close
  // ---------------------------------------------------------------------------

  /** The sessions that Agent.Close takes down: once it is under way those of its snapshot, and before those
      that are registered. */
  predicate InSight(s: State, sid: nat) {
    if s.agentClosed then sid in s.snapshot else sid in s.sessions && s.sessions[sid].registered
  }

  /** From every reachable state, before Agent.Close and at any point within it, there is a way to its
      return, so no deadlock can keep it from returning. On that way nothing moves that belongs to a session
      which it does not take down. */
  lemma CloseCanReturn(capacity: nat, s: State) returns (t: State)
    requires Good(capacity, s)
    ensures Leads(capacity, s, t) && t.agent.CloseReturned?
    ensures forall q :: q in s.runs && !InSight(s, s.runs[q].session) ==> q in t.runs && t.runs[q] == s.runs[q]
  {
    if s.agentClosed {
      t := ClosingReturns(capacity, s);
      OnwardEnds(capacity, s, t);
    } else {
      ClosedIsUnderWay(capacity, s);
      var begun := Apply(capacity, s, OfAgent(AgentCloses));
      KeepsGood(capacity, s, OfAgent(AgentCloses));
      OneStep(capacity, s, OfAgent(AgentCloses));
      hide Good, Leads, Onward;
      t := ClosingReturns(capacity, begun);
      OnwardEnds(capacity, begun, t);
      LeadsOn(capacity, s, begun, t);
    }
  }

  // ---------------------------------------------------------------------------
  // Which runs can outlive Agent.Close
  // ---------------------------------------------------------------------------

  /** The execution can go on until Agent.Close has returned while run r is still not done. */
  ghost predicate CanOutlive(capacity: nat, run: seq<State>, r: nat) {
    exists more :: Outlives(capacity, run, more, r)
  }

  ghost predicate Outlives(capacity: nat, run: seq<State>, more: seq<State>, r: nat) {
    && Execution(capacity, more) && run <= more
    && var s := more[|more| - 1];
       s.agent.CloseReturned? && r in s.runs && s.runs[r].pc != Done
  }

  lemma GoAlong(capacity: nat, run: seq<State>, t: State) returns (more: seq<State>)
    requires Execution(capacity, run) && Leads(capacity, run[|run| - 1], t)
    ensures Execution(capacity, more) && run <= more && more[|more| - 1] == t
  {
    hide Next;
    var path :| Path(capacity, path) && path[0] == run[|run| - 1] && path[|path| - 1] == t;
    JoinPaths(capacity, run, path);
    more := run + path[1..];
  }

  /** Once Agent.Close has begun, a live run can outlive it if and only if its session is not one of those in
      the snapshot, whatever has become or may still become of the session's SessionStart. */
  lemma OutlivesClosingExactly(capacity: nat, run: seq<State>, r: nat)
    requires Execution(capacity, run) && run[|run| - 1].agentClosed
    requires r in run[|run| - 1].runs && run[|run| - 1].runs[r].pc != Done
    ensures CanOutlive(capacity, run, r) <==> run[|run| - 1].runs[r].session !in run[|run| - 1].snapshot
  {
    assert |run| > 0;
    hide Execution, Outlives, Leads, Enabled, Apply;
    if run[|run| - 1].runs[r].session in run[|run| - 1].snapshot {
      forall more ensures !Outlives(capacity, run, more, r) {
        SnapshotJoined(capacity, run, more, r);
      }
    } else {
      var more := LeftBehind(capacity, run, r);
    }
  }

  lemma SnapshotJoined(capacity: nat, run: seq<State>, more: seq<State>, r: nat)
    requires Execution(capacity, run) && run[|run| - 1].agentClosed && r in run[|run| - 1].runs
    requires run[|run| - 1].runs[r].session in run[|run| - 1].snapshot
    ensures !Outlives(capacity, run, more, r)
  {
    if Outlives(capacity, run, more, r) {
      var n, m := |run| - 1, |more| - 1;
      assert more[n] == run[n];
      RunsStay(capacity, more, n, m);
      SnapshotStays(capacity, more, n, m);
      ShutdownComplete(capacity, more, m);
    }
  }

  /** A run that Agent.Close does not take down stays at work while it returns. */
  lemma LeftBehind(capacity: nat, run: seq<State>, r: nat) returns (more: seq<State>)
    requires Execution(capacity, run) && r in run[|run| - 1].runs && run[|run| - 1].runs[r].pc != Done
    requires !InSight(run[|run| - 1], run[|run| - 1].runs[r].session)
    ensures Outlives(capacity, run, more, r)
  {
    AlwaysGood(capacity, run, |run| - 1);
    var s := run[|run| - 1];
    hide Execution, Good, Leads;
    var t := CloseCanReturn(capacity, s);
    more := GoAlong(capacity, run, t);
  }

  /** In the state in which Agent.Close is called, its first step decides: a live run can outlive it if and
      only if its session is not registered any more, because its SessionStart has failed by then. */
  lemma OutlivesCallExactly(capacity: nat, run: seq<State>, r: nat) returns (called: seq<State>)
    requires Execution(capacity, run) && run[|run| - 1].agent.Open?
    requires r in run[|run| - 1].runs && run[|run| - 1].runs[r].pc != Done
    ensures AgentCan(run[|run| - 1], AgentCloses) && called == run + [AgentDoes(run[|run| - 1], AgentCloses)]
    ensures Execution(capacity, called)
    ensures run[|run| - 1].runs[r].session in run[|run| - 1].sessions
    ensures CanOutlive(capacity, called, r) <==> !run[|run| - 1].sessions[run[|run| - 1].runs[r].session].registered
  {
    var s := run[|run| - 1];
    AlwaysGood(capacity, run, |run| - 1);
    SessionOfRun(capacity, s, r);
    ClosedIsUnderWay(capacity, s);
    called := Extend(capacity, run, OfAgent(AgentCloses));
    assert called[|called| - 1].runs == s.runs;
    OutlivesClosingExactly(capacity, called, r);
  }

  /** Some time before Agent.Close is called, a live run can outlive it if and only if the SessionStart of its
      session has not succeeded: the run was started early, and the hook has failed or may still fail before
      the call. */
  lemma OutlivesCloseExactly(capacity: nat, run: seq<State>, r: nat)
    requires Execution(capacity, run) && run[|run| - 1].agent.Open?
    requires r in run[|run| - 1].runs && run[|run| - 1].runs[r].pc != Done
    ensures run[|run| - 1].runs[r].session in run[|run| - 1].sessions
    ensures CanOutlive(capacity, run, r) <==> !run[|run| - 1].sessions[run[|run| - 1].runs[r].session].startOK
  {
    assert |run| > 0;
    hide Execution, Outlives, Leads, Enabled, Apply;
    assert Good(capacity, run[|run| - 1]) by {
      AlwaysGood(capacity, run, |run| - 1);
    }
    SessionOfRun(capacity, run[|run| - 1], r);
    if run[|run| - 1].sessions[run[|run| - 1].runs[r].session].startOK {
      forall more ensures !Outlives(capacity, run, more, r) {
        NoneOutlives(capacity, run, more, r);
      }
    } else {
      var more := OneOutlives(capacity, run, r);
    }
  }

  lemma SessionOfRun(capacity: nat, s: State, r: nat)
    requires Good(capacity, s) && r in s.runs
    ensures s.runs[r].session in s.sessions && SessionOk(s.sessions[s.runs[r].session])
  {
    Parts(capacity, s);
  }

  lemma NoneOutlives(capacity: nat, run: seq<State>, more: seq<State>, r: nat)
    requires Execution(capacity, run) && r in run[|run| - 1].runs
    requires run[|run| - 1].runs[r].session in run[|run| - 1].sessions
    requires run[|run| - 1].sessions[run[|run| - 1].runs[r].session].startOK
    ensures !Outlives(capacity, run, more, r)
  {
    if Outlives(capacity, run, more, r) {
      var n, m := |run| - 1, |more| - 1;
      assert more[n] == run[n];
      RunsStay(capacity, more, n, m);
      ShutdownComplete(capacity, more, m);
      AlwaysGood(capacity, more, m);
      SessionOfRun(capacity, more[m], r);
    }
  }

  lemma OneOutlives(capacity: nat, run: seq<State>, r: nat) returns (more: seq<State>)
    requires Execution(capacity, run) && run[|run| - 1].agent.Open?
    requires r in run[|run| - 1].runs && run[|run| - 1].runs[r].pc != Done
    requires run[|run| - 1].runs[r].session in run[|run| - 1].sessions
    requires !run[|run| - 1].sessions[run[|run| - 1].runs[r].session].startOK
    ensures Outlives(capacity, run, more, r)
  {
    var s := run[|run| - 1];
    var sid := s.runs[r].session;
    AlwaysGood(capacity, run, |run| - 1);
    SessionOfRun(capacity, s, r);
    ClosedIsUnderWay(capacity, s);
    if s.sessions[sid].registered {
      var failed := Extend(capacity, run, OfSession(HookFails(sid)));
      more := LeftBehind(capacity, failed, r);
      assert failed[..|run|] == run;
    } else {
      more := LeftBehind(capacity, run, r);
    }
  }
}
