/** What holds in every execution of an agent with its sessions and runs (agent/session.go, agent/run.go,
    agent/agent.go): slots and exclusion, completion, and shutdown. */
module Guarantees {
  import opened Types
  import opened Lifecycle

  // ---------------------------------------------------------------------------
  // Main results: slots and exclusion
  // ---------------------------------------------------------------------------

  /** In every reachable state, with any number of sessions: the slots taken are the runs that hold
      capacity and have not released it, and never more than the capacity. */
  lemma SlotConservation(capacity: nat, run: seq<State>, n: nat)
    requires Execution(capacity, run) && n < |run|
    ensures run[n].slots == |Holding(run[n].runs)| <= capacity
    ensures forall r :: r in run[n].runs && run[n].runs[r].pc == Running ==> r in Holding(run[n].runs)
  {
    Reachable(capacity, run, n);
  }

  /** A session has at most one run that is not done, and it is its active run. */
  lemma OneLiveRun(capacity: nat, run: seq<State>, n: nat, r: nat, q: nat)
    requires Execution(capacity, run) && n < |run|
    requires r in run[n].runs && q in run[n].runs && run[n].runs[r].session == run[n].runs[q].session
    requires run[n].runs[r].pc != Done && run[n].runs[q].pc != Done
    ensures r == q && run[n].runs[r].session in run[n].sessions
    ensures run[n].sessions[run[n].runs[r].session].active == Some(r)
  {
    Reachable(capacity, run, n);
  }

  /** The receive that gives the slot back in complete never has to wait. */
  lemma SlotReceiveNeverBlocks(capacity: nat, run: seq<State>, n: nat, r: nat)
    requires Execution(capacity, run) && n < |run|
    requires r in run[n].runs && run[n].runs[r].pc == Completing && run[n].runs[r].hasCapacity
    ensures run[n].slots > 0
  {
    Reachable(capacity, run, n);
    assert r in Holding(run[n].runs);
  }

  /** complete runs once for every reserved run: not before the run is done, and never again. */
  lemma CompletesOnce(capacity: nat, run: seq<State>, n: nat, r: nat)
    requires Execution(capacity, run) && n < |run| && r in run[n].runs
    ensures run[n].runs[r].completions == if run[n].runs[r].pc == Done then 1 else 0
  {
    Reachable(capacity, run, n);
  }

  // ---------------------------------------------------------------------------
  // Main results: what newSession and Start promise
  // ---------------------------------------------------------------------------

  /** The session was closed at a moment, up to the nth, at which its SessionStart hook was still running. */
  ghost predicate ClosedWhileHooking(run: seq<State>, n: nat, sid: nat) {
    exists k :: 0 <= k <= n && k < |run| && HookingClosed(run[k], sid)
  }

  predicate HookingClosed(s: State, sid: nat) {
    sid in s.sessions && s.sessions[sid].start.Hooking? && s.sessions[sid].closed
  }

  /** What the progress of newSession says about the hook and about an early close. */
  predicate StartRecord(y: Session, early: bool) {
    match y.start
    case Hooking => !y.startOK && (early <==> y.closed)
    case Failing => !y.startOK
    case Recorded(saw) => (saw <==> !y.startOK || early) && (!y.startOK ==> y.closed)
    case StartDone(saw) => (saw <==> !y.startOK || early) && (!y.startOK ==> y.closed)
    case Returned(ok) => (ok ==> y.startOK && !early) && (!y.startOK ==> y.closed)
  }

  /** How one step moves a session along in newSession. */
  predicate StartMoves(y: Session, z: Session, agentClosed: bool) {
    && (y.closed ==> z.closed)
    && (z.start != y.start || z.startOK != y.startOK ==> (y.closed <==> z.closed) || y.start.Failing?)
    && match y.start
       case Hooking =>
         || (z.start == Hooking && z.startOK == y.startOK)
         || (z.start == Recorded(y.closed) && z.startOK) || (z.start == Failing && z.startOK == y.startOK)
       case Failing => z.startOK == y.startOK && (z.start == Failing || (z.start == Recorded(true) && z.closed))
       case Recorded(saw) => z.startOK == y.startOK && (z.start == y.start || z.start == StartDone(saw))
       case StartDone(saw) => z.startOK == y.startOK && (z.start == y.start || z.start == Returned(!saw && !agentClosed))
       case Returned(_) => z.startOK == y.startOK && z.start == y.start
  }

  predicate MovesTo(s: State, t: State, sid: nat) {
    sid in t.sessions ==>
      if sid in s.sessions then StartMoves(s.sessions[sid], t.sessions[sid], s.agentClosed)
      else t.sessions[sid].start.Hooking? && !t.sessions[sid].startOK && !t.sessions[sid].closed
  }

  lemma SessionMovesSession(s: State, m: SessionMove, sid: nat)
    requires SessionCan(s, m)
    ensures MovesTo(s, SessionDoes(s, m), sid)
  {
  }

  lemma RunMovesSession(capacity: nat, s: State, m: RunMove, sid: nat)
    requires RunCan(capacity, s, m) && Active(s)
    ensures MovesTo(s, RunDoes(capacity, s, m), sid)
  {
  }

  lemma CloserMovesSession(s: State, m: CloserMove, sid: nat)
    requires CloserCan(s, m)
    ensures MovesTo(s, CloserDoes(s, m), sid)
  {
  }

  lemma AgentMovesSession(s: State, m: AgentMove, sid: nat)
    requires AgentCan(s, m)
    ensures MovesTo(s, AgentDoes(s, m), sid)
  {
  }

  lemma SessionsMove(capacity: nat, s: State, step: Step, sid: nat)
    requires Enabled(capacity, s, step) && Active(s)
    ensures MovesTo(s, Apply(capacity, s, step), sid)
  {
    hide MovesTo, Active, SessionCan, SessionDoes, RunCan, RunDoes, CloserCan, CloserDoes, AgentCan, AgentDoes;
    match step {
      case OfSession(m) => SessionMovesSession(s, m, sid);
      case OfRun(m) => RunMovesSession(capacity, s, m, sid);
      case OfCloser(m) => CloserMovesSession(s, m, sid);
      case OfAgent(m) => AgentMovesSession(s, m, sid);
    }
  }

  lemma {:induction false} StartRecorded(capacity: nat, run: seq<State>, n: nat, sid: nat)
    requires Execution(capacity, run) && n < |run| && sid in run[n].sessions
    ensures StartRecord(run[n].sessions[sid], ClosedWhileHooking(run, n, sid))
  {
    hide Enabled, Apply, Inv, StartRecord, StartMoves;
    if n > 0 {
      Reachable(capacity, run, n - 1);
      assert Next(capacity, run[n - 1], run[n - 1 + 1]);
      var step :| Enabled(capacity, run[n - 1], step) && run[n] == Apply(capacity, run[n - 1], step);
      assert Active(run[n - 1]) by { InvHasActive(capacity, run[n - 1]); }
      SessionsMove(capacity, run[n - 1], step, sid);
      if sid in run[n - 1].sessions {
        StartRecorded(capacity, run, n - 1, sid);
        EarlyByNow(run, n, sid);
        RecordMoves(run[n - 1].sessions[sid], run[n].sessions[sid], run[n - 1].agentClosed,
                    ClosedWhileHooking(run, n - 1, sid), ClosedWhileHooking(run, n, sid));
      } else {
        forall k | 0 <= k <= n ensures !HookingClosed(run[k], sid) {
          if k < n && sid in run[k].sessions {
            RunsStay(capacity, run, k, n - 1);
          }
        }
        RecordFresh(run[n].sessions[sid]);
      }
    }
  }

  lemma InvHasActive(capacity: nat, s: State)
    requires Inv(capacity, s)
    ensures Active(s) && Sessions(s)
  {
  }

  lemma EarlyByNow(run: seq<State>, n: nat, sid: nat)
    requires 0 < n < |run|
    ensures ClosedWhileHooking(run, n, sid) <==> ClosedWhileHooking(run, n - 1, sid) || HookingClosed(run[n], sid)
  {
  }

  lemma RecordMoves(y: Session, z: Session, agentClosed: bool, before: bool, now: bool)
    requires StartRecord(y, before) && StartMoves(y, z, agentClosed)
    requires now <==> before || (z.start.Hooking? && z.closed)
    ensures StartRecord(z, now)
  {
  }

  lemma RecordFresh(y: Session)
    requires y.start.Hooking? && !y.startOK && !y.closed
    ensures StartRecord(y, false)
  {
  }

  /** newSession succeeds only for a session whose SessionStart succeeded, which is registered, and which was
      not closed while the hook ran. After a failed SessionStart it is closed and out of the agent's map. */
  lemma StartedSession(capacity: nat, run: seq<State>, n: nat, sid: nat)
    requires Execution(capacity, run) && n < |run| && sid in run[n].sessions
    ensures run[n].sessions[sid].start == Returned(true) ==>
              && run[n].sessions[sid].startOK && run[n].sessions[sid].registered
              && forall k :: 0 <= k <= n && sid in run[k].sessions && run[k].sessions[sid].start.Hooking? ==>
                   !run[k].sessions[sid].closed
    ensures StartedUp(run[n].sessions[sid].start) && !run[n].sessions[sid].startOK ==>
              run[n].sessions[sid].closed && !run[n].sessions[sid].registered
  {
    Reachable(capacity, run, n);
    hide Execution, Closers, Closing, Slots, Runs, Active;
    StartRecorded(capacity, run, n, sid);
    if run[n].sessions[sid].start == Returned(true) {
      forall k | 0 <= k <= n && sid in run[k].sessions && run[k].sessions[sid].start.Hooking?
        ensures !run[k].sessions[sid].closed
      {
        assert !HookingClosed(run[k], sid);
      }
    }
  }

  /** At the step at which newSession returns, it returns success exactly when its SessionStart succeeded,
      the session had not been closed while the hook ran, and the agent is open. */
  lemma NewSessionSucceedsExactly(capacity: nat, run: seq<State>, n: nat, sid: nat)
    requires Execution(capacity, run) && n + 1 < |run| && sid in run[n].sessions && sid in run[n + 1].sessions
    requires !run[n].sessions[sid].start.Returned? && run[n + 1].sessions[sid].start.Returned?
    ensures run[n + 1].sessions[sid].start.ok <==>
              && run[n].sessions[sid].startOK && !run[n].agentClosed
              && !exists k :: 0 <= k <= n && sid in run[k].sessions && run[k].sessions[sid].start.Hooking?
                              && run[k].sessions[sid].closed
  {
    Reachable(capacity, run, n);
    InvHasActive(capacity, run[n]);
    hide Inv, Enabled, Apply;
    StartRecorded(capacity, run, n, sid);
    assert Next(capacity, run[n], run[n + 1]);
    var step :| Enabled(capacity, run[n], step) && run[n + 1] == Apply(capacity, run[n], step);
    SessionsMove(capacity, run[n], step, sid);
    if ClosedWhileHooking(run, n, sid) {
      var k :| 0 <= k <= n && k < |run| && HookingClosed(run[k], sid);
      assert sid in run[k].sessions && run[k].sessions[sid].start.Hooking? && run[k].sessions[sid].closed;
    } else {
      forall k | 0 <= k <= n && sid in run[k].sessions && run[k].sessions[sid].start.Hooking?
        ensures !run[k].sessions[sid].closed
      {
        assert !HookingClosed(run[k], sid);
      }
    }
  }

  /** A run begins only while its session and the agent are open, with capacity in hand and not cancelled. */
  lemma RunBeginsOpen(capacity: nat, run: seq<State>, n: nat, r: nat)
    requires Execution(capacity, run) && n + 1 < |run|
    requires r in run[n + 1].runs && run[n + 1].runs[r].pc == Running
    requires !(r in run[n].runs && run[n].runs[r].pc == Running)
    ensures r in run[n].runs && run[n].runs[r].pc == PastSelect && run[n].runs[r].session in run[n].sessions
    ensures !run[n].sessions[run[n].runs[r].session].closed && !run[n].sessions[run[n].runs[r].session].locked
    ensures !run[n].runs[r].cancelled && run[n].runs[r].hasCapacity && !run[n].agentClosed
  {
    Reachable(capacity, run, n);
    hide Inv, Enabled, Apply;
    assert Next(capacity, run[n], run[n + 1]);
    var step :| Enabled(capacity, run[n], step) && run[n + 1] == Apply(capacity, run[n], step);
    StepBegins(capacity, run[n], step, r);
  }

  lemma StepBegins(capacity: nat, s: State, step: Step, r: nat)
    requires Enabled(capacity, s, step) && Inv(capacity, s)
    requires RunIs(Apply(capacity, s, step), r, Running) && !RunIs(s, r, Running)
    ensures RunIs(s, r, PastSelect) && Free(s, s.runs[r].session) && !s.sessions[s.runs[r].session].closed
    ensures !s.runs[r].cancelled && s.runs[r].hasCapacity && !s.agentClosed
  {
    hide Active, Sessions, Closers, Closing, Slots, SessionCan, SessionDoes, CloserCan, CloserDoes, AgentCan, AgentDoes,
         RunCan, RunDoes, Evolves;
    if step.OfRun? {
      MoveBegins(capacity, s, step.run, r);
    } else {
      StepEvolves(capacity, s, step);
    }
  }

  lemma MoveBegins(capacity: nat, s: State, m: RunMove, r: nat)
    requires RunCan(capacity, s, m) && Runs(s)
    requires RunIs(RunDoes(capacity, s, m), r, Running) && !RunIs(s, r, Running)
    ensures RunIs(s, r, PastSelect) && Free(s, s.runs[r].session) && !s.sessions[s.runs[r].session].closed
    ensures !s.runs[r].cancelled && s.runs[r].hasCapacity && !s.agentClosed
  {
  }

  /** A run that waits past the select can begin exactly when nothing has stopped it: its session and the
      agent are open, no Start holds the session, and it is not cancelled. */
  lemma RunCanBeginExactly(capacity: nat, run: seq<State>, n: nat, r: nat)
    requires Execution(capacity, run) && n < |run| && r in run[n].runs && run[n].runs[r].pc == PastSelect
    ensures run[n].runs[r].session in run[n].sessions
    ensures (exists t :: Next(capacity, run[n], t) && r in t.runs && t.runs[r].pc == Running) <==>
              && !run[n].agentClosed && !run[n].sessions[run[n].runs[r].session].closed
              && !run[n].sessions[run[n].runs[r].session].locked && !run[n].runs[r].cancelled
  {
    Reachable(capacity, run, n);
    var s := run[n];
    InvHasActive(capacity, s);
    hide Inv, Execution, Sessions;
    if t :| Next(capacity, s, t) && r in t.runs && t.runs[r].pc == Running {
      var step :| Enabled(capacity, s, step) && t == Apply(capacity, s, step);
      StepBegins(capacity, s, step, r);
    }
    if !s.agentClosed && Free(s, s.runs[r].session) && !s.sessions[s.runs[r].session].closed && !s.runs[r].cancelled {
      var step := OfRun(Recheck(r));
      assert Enabled(capacity, s, step);
      assert Next(capacity, s, Apply(capacity, s, step));
    }
  }

  // ---------------------------------------------------------------------------
  // Main results: shutdown
  // ---------------------------------------------------------------------------

  /** Whatever is done later stays done. */
  lemma {:induction false} Lasting(capacity: nat, run: seq<State>, n: nat, m: nat)
    requires Execution(capacity, run) && n <= m < |run|
    ensures run[n].agentClosed ==> run[m].agentClosed
    ensures run[n].agentClosed ==> forall r :: r in run[m].runs && run[m].runs[r].pc == Running ==>
              r in run[n].runs && run[n].runs[r].pc == Running
    ensures run[n].agentClosed ==> forall sid :: sid in run[m].sessions && run[m].sessions[sid].start == Returned(true) ==>
              sid in run[n].sessions && run[n].sessions[sid].start == Returned(true)
    decreases m - n
  {
    hide Enabled, Apply;
    if n < m {
      Lasting(capacity, run, n, m - 1);
      assert Next(capacity, run[m - 1], run[m - 1 + 1]);
      var step :| Enabled(capacity, run[m - 1], step) && run[m] == Apply(capacity, run[m - 1], step);
      if run[n].agentClosed {
        StepEvolves(capacity, run[m - 1], step);
      }
    }
  }

  /** Once the agent is closed a Start that has not got the session's lock by then never gets it, so it reserves
      no run. */
  lemma {:induction false} NoStartAfterClose(capacity: nat, run: seq<State>, n: nat, m: nat, sid: nat)
    requires Execution(capacity, run) && n <= m < |run| && run[n].agentClosed
    requires sid in run[n].sessions && !run[n].sessions[sid].locked
    ensures run[m].agentClosed && sid in run[m].sessions && !run[m].sessions[sid].locked
    ensures forall r :: r in run[m].runs && run[m].runs[r].session == sid ==> r in run[n].runs
    decreases m - n
  {
    hide Enabled, Apply;
    if n < m {
      NoStartAfterClose(capacity, run, n, m - 1, sid);
      assert Next(capacity, run[m - 1], run[m - 1 + 1]);
      var step :| Enabled(capacity, run[m - 1], step) && run[m] == Apply(capacity, run[m - 1], step);
      Reachable(capacity, run, m - 1);
      InvHasActive(capacity, run[m - 1]);
      hide Inv;
      StepEvolves(capacity, run[m - 1], step);
      StaysUnlocked(capacity, run[m - 1], step, sid);
    }
  }

  predicate NotStarted(s: State, t: State, sid: nat) {
    && sid in t.sessions && !t.sessions[sid].locked
    && forall r :: r in t.runs && t.runs[r].session == sid ==> r in s.runs && s.runs[r].session == sid
  }

  lemma SessionLeavesUnlocked(s: State, m: SessionMove, sid: nat)
    requires SessionCan(s, m) && s.agentClosed && sid in s.sessions && !s.sessions[sid].locked
    ensures NotStarted(s, SessionDoes(s, m), sid)
  {
  }

  lemma RunLeavesUnlocked(capacity: nat, s: State, m: RunMove, sid: nat)
    requires RunCan(capacity, s, m) && Active(s) && sid in s.sessions && !s.sessions[sid].locked
    ensures NotStarted(s, RunDoes(capacity, s, m), sid)
  {
  }

  lemma CloserLeavesUnlocked(s: State, m: CloserMove, sid: nat)
    requires CloserCan(s, m) && sid in s.sessions && !s.sessions[sid].locked
    ensures NotStarted(s, CloserDoes(s, m), sid)
  {
  }

  lemma AgentLeavesUnlocked(s: State, m: AgentMove, sid: nat)
    requires AgentCan(s, m) && sid in s.sessions && !s.sessions[sid].locked
    ensures NotStarted(s, AgentDoes(s, m), sid)
  {
  }

  lemma StaysUnlocked(capacity: nat, s: State, step: Step, sid: nat)
    requires Enabled(capacity, s, step) && Active(s) && s.agentClosed && sid in s.sessions && !s.sessions[sid].locked
    ensures NotStarted(s, Apply(capacity, s, step), sid)
  {
    hide NotStarted, Active, SessionCan, SessionDoes, RunCan, RunDoes, CloserCan, CloserDoes, AgentCan, AgentDoes;
    match step {
      case OfSession(m) => SessionLeavesUnlocked(s, m, sid);
      case OfRun(m) => RunLeavesUnlocked(capacity, s, m, sid);
      case OfCloser(m) => CloserLeavesUnlocked(s, m, sid);
      case OfAgent(m) => AgentLeavesUnlocked(s, m, sid);
    }
  }

  /** All cancellations come before the first join: while Agent.Close joins, every live run of a session it
      took down is already cancelled. */
  lemma CancelBeforeJoin(capacity: nat, run: seq<State>, n: nat, r: nat)
    requires Execution(capacity, run) && n < |run| && run[n].agent.Joining?
    requires r in run[n].runs && run[n].runs[r].pc != Done && run[n].runs[r].session in run[n].snapshot
    ensures run[n].runs[r].cancelled
  {
    Reachable(capacity, run, n);
  }

  /** What Agent.Close takes down is fixed by its first step. */
  lemma {:induction false} SnapshotStays(capacity: nat, run: seq<State>, n: nat, m: nat)
    requires Execution(capacity, run) && n <= m < |run| && run[n].agentClosed
    ensures run[m].agentClosed && run[m].snapshot == run[n].snapshot
    decreases m - n
  {
    hide Enabled, Apply;
    if n < m {
      SnapshotStays(capacity, run, n, m - 1);
      assert Next(capacity, run[m - 1], run[m - 1 + 1]);
      var step :| Enabled(capacity, run[m - 1], step) && run[m] == Apply(capacity, run[m - 1], step);
      SnapshotKept(capacity, run[m - 1], step);
    }
  }

  lemma SnapshotKept(capacity: nat, s: State, step: Step)
    requires Enabled(capacity, s, step) && s.agentClosed
    ensures Apply(capacity, s, step).agentClosed && Apply(capacity, s, step).snapshot == s.snapshot
  {
    hide SessionCan, SessionDoes, RunCan, RunDoes, CloserCan, CloserDoes;
    StepEvolves(capacity, s, step);
  }

  /** When Agent.Close returns, a run that is not done can only belong to a session that was not registered
      when it was called, because its SessionStart had failed by then. If there was no such session, every
      run ever reserved is done and no slot is held. A SessionStart that fails later makes no difference. */
  lemma ShutdownComplete(capacity: nat, run: seq<State>, n: nat)
    requires Execution(capacity, run) && n < |run| && run[n].agent.CloseReturned?
    ensures forall r :: r in run[n].runs && run[n].runs[r].pc != Done ==>
              && run[n].runs[r].session in run[n].sessions && run[n].runs[r].session !in run[n].snapshot
              && !run[n].sessions[run[n].runs[r].session].registered
    ensures run[n].sessions.Keys <= run[n].snapshot ==>
              (forall r :: r in run[n].runs ==> run[n].runs[r].pc == Done) && run[n].slots == 0
  {
    Reachable(capacity, run, n);
    var s := run[n];
    if s.sessions.Keys <= s.snapshot {
      assert Holding(s.runs) == {};
    }
  }

  /** It stays so: after Agent.Close has returned, every run there ever is belongs to a session that was
      there, and if Agent.Close took that session down the run had been reserved before and is done. */
  lemma {:induction false} QuietAfterShutdown(capacity: nat, run: seq<State>, n: nat, m: nat)
    requires Execution(capacity, run) && n <= m < |run| && run[n].agent.CloseReturned?
    ensures run[m].agentClosed && run[m].sessions.Keys == run[n].sessions.Keys
    ensures forall sid :: sid in run[n].snapshot ==> sid in run[n].sessions && run[m].sessions[sid].closed
    ensures forall r :: r in run[m].runs ==>
              && run[m].runs[r].session in run[n].sessions
              && (run[m].runs[r].session in run[n].snapshot ==> r in run[n].runs && run[m].runs[r].pc == Done)
    decreases m - n
  {
    hide Enabled, Apply;
    Reachable(capacity, run, n);
    if n == m {
      ShutdownComplete(capacity, run, n);
    } else {
      hide Inv;
      QuietAfterShutdown(capacity, run, n, m - 1);
      assert Next(capacity, run[m - 1], run[m - 1 + 1]);
      var step :| Enabled(capacity, run[m - 1], step) && run[m] == Apply(capacity, run[m - 1], step);
      StepEvolves(capacity, run[m - 1], step);
    }
  }

  /** If Agent.Close took every session down: no run is ever reserved again, and all stay done. */
  lemma NothingAfterShutdown(capacity: nat, run: seq<State>, n: nat, m: nat)
    requires Execution(capacity, run) && n <= m < |run| && run[n].agent.CloseReturned?
    requires run[n].sessions.Keys <= run[n].snapshot
    ensures run[m].runs.Keys == run[n].runs.Keys && forall r :: r in run[m].runs ==> run[m].runs[r].pc == Done
  {
    QuietAfterShutdown(capacity, run, n, m);
    RunsStay(capacity, run, n, m);
  }

  /** Runs and sessions keep their identity, and a successful SessionStart is never undone. */
  lemma {:induction false} RunsStay(capacity: nat, run: seq<State>, n: nat, m: nat)
    requires Execution(capacity, run) && n <= m < |run|
    ensures forall r :: r in run[n].runs ==> r in run[m].runs && run[m].runs[r].session == run[n].runs[r].session
    ensures forall sid :: sid in run[n].sessions ==>
              sid in run[m].sessions && (run[n].sessions[sid].startOK ==> run[m].sessions[sid].startOK)
    decreases m - n
  {
    hide Enabled, Apply;
    if n < m {
      RunsStay(capacity, run, n, m - 1);
      assert Next(capacity, run[m - 1], run[m - 1 + 1]);
      var step :| Enabled(capacity, run[m - 1], step) && run[m] == Apply(capacity, run[m - 1], step);
      StepEvolves(capacity, run[m - 1], step);
    }
  }

  /** SessionEnd fires at most once per session, only after SessionStart has succeeded and returned, and
      only when the session is closed for good and has no live run. */
  lemma SessionEndOnce(capacity: nat, run: seq<State>, n: nat, sid: nat)
    requires Execution(capacity, run) && n < |run| && sid in run[n].sessions
    ensures var y := run[n].sessions[sid];
            && y.endRuns <= 1
            && (y.endRuns == 1 ==> y.startOK && StartedUp(y.start) && y.closed && y.active.None?
                                   && forall r :: r in run[n].runs && run[n].runs[r].session == sid ==> run[n].runs[r].pc == Done)
  {
    Reachable(capacity, run, n);
  }

  /** Session.Close cancels before it waits: from then on a run of the session that is not done is cancelled. */
  lemma SessionCloseCancels(capacity: nat, run: seq<State>, n: nat, c: nat, r: nat)
    requires Execution(capacity, run) && n < |run| && c in run[n].closers && !run[n].closers[c].pc.ToCancel?
    requires r in run[n].runs && run[n].runs[r].session == run[n].closers[c].session && run[n].runs[r].pc != Done
    ensures run[n].runs[r].cancelled
  {
    Reachable(capacity, run, n);
    InvHasActive(capacity, run[n]);
    assert CloserOk(run[n], run[n].closers[c]);
  }

  /** When a caller of Session.Close returns, the session is closed, its start is over, each of its runs is
      done, and SessionEnd has fired and come back exactly if SessionStart had succeeded. */
  lemma SessionCloseComplete(capacity: nat, run: seq<State>, n: nat, c: nat)
    requires Execution(capacity, run) && n < |run| && c in run[n].closers && run[n].closers[c].pc.Closed?
    ensures run[n].closers[c].session in run[n].sessions
    ensures var y := run[n].sessions[run[n].closers[c].session];
            && y.closed && StartedUp(y.start)
            && (y.endOnce.Complete? <==> y.startOK) && y.endRuns == (if y.startOK then 1 else 0)
    ensures forall r :: r in run[n].runs && run[n].runs[r].session == run[n].closers[c].session ==> run[n].runs[r].pc == Done
  {
    Reachable(capacity, run, n);
  }

  // ---------------------------------------------------------------------------
  // The assumption about SessionStart is needed
  // ---------------------------------------------------------------------------

  lemma Extend(capacity: nat, run: seq<State>, step: Step) returns (more: seq<State>)
    requires Execution(capacity, run) && Enabled(capacity, run[|run| - 1], step)
    ensures |more| > 0 && Execution(capacity, more) && more[|more| - 1] == Apply(capacity, run[|run| - 1], step)
    ensures more == run + [Apply(capacity, run[|run| - 1], step)]
  {
    more := run + [Apply(capacity, run[|run| - 1], step)];
    forall k | 0 <= k < |more| - 1 ensures Next(capacity, more[k], more[k + 1]) {
      if k < |run| - 1 {
        assert Next(capacity, run[k], run[k + 1]);
      }
    }
  }

  /** The session is started and its run at work while the SessionStart hook has not returned. */
  lemma EarlyStart(capacity: nat) returns (run: seq<State>)
    requires capacity > 0
    ensures |run| > 0 && Execution(capacity, run)
    ensures run[|run| - 1] == State(map[0 := Session(Hooking, true, false, false, false, Some(0), NotYet, 0)],
                                    map[0 := Run(0, Running, true, false, 0)], map[], 1, false, Open, {})
  {
    hide Execution;
    FreshExecution(capacity);
    run := [Fresh];
    run := Extend(capacity, run, OfSession(Insert(0)));
    run := Extend(capacity, run, OfSession(StartLocks(0)));
    run := Extend(capacity, run, OfRun(StartReserves(0, 0)));
    run := Extend(capacity, run, OfRun(AcquireSlot(0)));
    run := Extend(capacity, run, OfRun(Recheck(0)));
  }

  /** A session that is started through GetSession while its SessionStart hook still runs, and whose hook
      then fails, is out of the agent's sight: Agent.Close returns while the run is at work. */
  lemma FailedStartEscapesClose(capacity: nat) returns (run: seq<State>)
    requires capacity > 0
    ensures |run| > 0 && Execution(capacity, run)
    ensures var s := run[|run| - 1]; s.agent.CloseReturned? && 0 in s.runs && s.runs[0].pc == Running
  {
    hide Execution;
    run := EarlyStart(capacity);
    run := Extend(capacity, run, OfSession(HookFails(0)));
    run := Extend(capacity, run, OfAgent(AgentCloses));
    assert run[|run| - 1].snapshot == {};
    run := Extend(capacity, run, OfAgent(AllRequested));
    run := Extend(capacity, run, OfAgent(AgentCloseReturns));
  }

  lemma FreshExecution(capacity: nat)
    ensures Execution(capacity, [Fresh])
  {
  }
}
