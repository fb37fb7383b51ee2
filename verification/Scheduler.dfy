/** The ordered tool scheduler as a step relation (tools/executor.go RunTools, runParallelRange).

    One step per answer of the safety predicate, channel operation, context reading, goroutine action
    and result write. The environment may cancel at any moment. Goroutines run in any order. */
module Scheduler {
  import opened Types
  import opened ToolCall

  /** fixed[k] is the answer of the safety predicate on the original input of call k.
      None allows a different answer each time it is asked. */
  datatype Batch = Batch(calls: seq<Request>, maxConcurrency: nat, fixed: seq<Option<bool>>)

  predicate ValidBatch(b: Batch) {
    b.maxConcurrency >= 1 && |b.fixed| == |b.calls|
  }

  /** Where the calling goroutine stands. */
  datatype Main =
    | Scan(start: nat)
    | Serial(start: nat)
    | Grow(start: nat, end: nat)
    | Check(start: nat, end: nat, i: nat)
    | Acquire(start: nat, end: nat, i: nat)
    | Recheck(start: nat, end: nat, i: nat)
    | Fill(start: nat, end: nat, i: nat, err: Error)
    | Join(start: nat, end: nat)
    | Finished

  /** A worker goroutine: started, inside runSingle, result stored, slot given back. */
  datatype Worker = Spawned | Running | Stored | Released

  datatype Event = Began(k: nat) | Ended(k: nat)

  /** ended is the error of the context once it is over.
      yes and home are history: the calls answered parallel, and the range each call ran in. */
  datatype State = State(main: Main, workers: map<nat, Worker>, slots: nat, ended: Option<Error>,
                         results: seq<Option<Response>>, log: seq<Event>, yes: set<nat>, home: seq<nat>)

  datatype Step =
    | Cancel(err: Error)
    | AskStart(answer: bool)
    | SerialReturns(r: Response)
    | AskNext(answer: bool)
    | RangeComplete
    | SeeCancelled
    | SeeLive
    | TakeSlot
    | GiveUpWaiting
    | Spawn
    | LoopDone
    | GiveBackSlot
    | FillOne
    | FillDone
    | Joined
    | AllScanned
    | WorkerCancelled(k: nat)
    | WorkerEnters(k: nat)
    | WorkerReturns(k: nat, r: Response)
    | WorkerReleases(k: nat)
    | WorkerDone(k: nat)

  predicate MayAnswer(b: Batch, k: nat, answer: bool)
    requires ValidBatch(b) && k < |b.calls|
  {
    b.fixed[k].None? || b.fixed[k].value == answer
  }

  predicate Enabled(b: Batch, s: State, step: Step)
    requires ValidBatch(b)
  {
    var n := |b.calls|;
    |s.results| == n &&
    match step
    case Cancel(_) => s.ended.None?
    case AskStart(answer) => s.main.Scan? && s.main.start < n && MayAnswer(b, s.main.start, answer)
    case SerialReturns(r) => s.main.Serial? && s.main.start < n && Answers(b.calls[s.main.start], r)
    case AskNext(answer) => s.main.Grow? && s.main.end < n && MayAnswer(b, s.main.end, answer)
    case RangeComplete => s.main.Grow? && s.main.end == n
    case SeeCancelled => s.main.Check? && s.main.i < s.main.end && s.ended.Some?
    case SeeLive => s.main.Check? && s.main.i < s.main.end && s.ended.None?
    case TakeSlot => s.main.Acquire? && s.slots < b.maxConcurrency
    case GiveUpWaiting => s.main.Acquire? && s.ended.Some?
    case Spawn => s.main.Recheck? && s.ended.None?
    case LoopDone => s.main.Check? && s.main.i >= s.main.end
    case GiveBackSlot => s.main.Recheck? && s.ended.Some? && s.slots > 0
    case FillOne => s.main.Fill? && s.main.i < s.main.end <= n
    case FillDone => s.main.Fill? && s.main.i >= s.main.end
    case Joined => s.main.Join? && s.workers == map[]
    case AllScanned => s.main.Scan? && s.main.start >= n
    case WorkerCancelled(k) => k in s.workers && k < n && s.workers[k] == Spawned && s.ended.Some?
    case WorkerEnters(k) => k in s.workers && k < n && s.workers[k] == Spawned && s.ended.None?
    case WorkerReturns(k, r) => k in s.workers && k < n && s.workers[k] == Running && Answers(b.calls[k], r)
    case WorkerReleases(k) => k in s.workers && s.workers[k] == Stored && s.slots > 0
    case WorkerDone(k) => k in s.workers && s.workers[k] == Released
  }

  function Store(s: State, k: nat, r: Response): State
    requires k < |s.results|
  {
    s.(results := s.results[k := Some(r)], log := s.log + [Ended(k)])
  }

  function Apply(b: Batch, s: State, step: Step): State
    requires ValidBatch(b) && Enabled(b, s, step)
  {
    match step
    case Cancel(err) => s.(ended := Some(err))
    case AskStart(answer) =>
      var k := s.main.start;
      if answer then s.(main := Grow(k, k + 1), yes := s.yes + {k}, home := s.home + [k])
      else s.(main := Serial(k), log := s.log + [Began(k)], home := s.home + [k])
    case SerialReturns(r) => Store(s, s.main.start, r).(main := Scan(s.main.start + 1))
    case AskNext(answer) =>
      var k := s.main.end;
      if answer then s.(main := Grow(s.main.start, k + 1), yes := s.yes + {k}, home := s.home + [s.main.start])
      else s.(main := Check(s.main.start, k, s.main.start), slots := 0)
    case RangeComplete => s.(main := Check(s.main.start, s.main.end, s.main.start), slots := 0)
    case SeeCancelled => s.(main := Fill(s.main.start, s.main.end, s.main.i, s.ended.value))
    case SeeLive => s.(main := Acquire(s.main.start, s.main.end, s.main.i))
    case TakeSlot => s.(main := Recheck(s.main.start, s.main.end, s.main.i), slots := s.slots + 1)
    case GiveUpWaiting => s.(main := Fill(s.main.start, s.main.end, s.main.i, s.ended.value))
    case Spawn => s.(main := Check(s.main.start, s.main.end, s.main.i + 1), workers := s.workers[s.main.i := Spawned])
    case LoopDone => s.(main := Join(s.main.start, s.main.end))
    case GiveBackSlot => s.(main := Fill(s.main.start, s.main.end, s.main.i, s.ended.value), slots := s.slots - 1)
    case FillOne =>
      var err := s.main.err;
      Store(s, s.main.i, FailureResponse(b.calls[s.main.i], err)).(main := Fill(s.main.start, s.main.end, s.main.i + 1, err))
    case FillDone => s.(main := Join(s.main.start, s.main.end))
    case Joined => s.(main := Scan(s.main.end))
    case AllScanned => s.(main := Finished)
    case WorkerCancelled(k) => Store(s, k, FailureResponse(b.calls[k], s.ended.value)).(workers := s.workers[k := Stored])
    case WorkerEnters(k) => s.(workers := s.workers[k := Running], log := s.log + [Began(k)])
    case WorkerReturns(k, r) => Store(s, k, r).(workers := s.workers[k := Stored])
    case WorkerReleases(k) => s.(workers := s.workers[k := Released], slots := s.slots - 1)
    case WorkerDone(k) => s.(workers := s.workers - {k})
  }

  predicate Initial(b: Batch, s: State) {
    && s.main == Scan(0) && s.workers == map[] && s.slots == 0 && s.ended == None && s.log == [] && s.yes == {} && s.home == []
    && s.results == seq(|b.calls|, k => None)
  }

  ghost predicate Next(b: Batch, s: State, t: State)
    requires ValidBatch(b)
  {
    exists step :: Enabled(b, s, step) && t == Apply(b, s, step)
  }

  /** A schedule: any finite run from a fresh batch. */
  ghost predicate Schedule(b: Batch, run: seq<State>)
    requires ValidBatch(b)
  {
    && |run| > 0 && Initial(b, run[0])
    && forall k :: 0 <= k < |run| - 1 ==> Next(b, run[k], run[k + 1])
  }

  // ---------------------------------------------------------------------------
  // The invariant
  // ---------------------------------------------------------------------------

  /** First call of the range at hand. */
  function Base(b: Batch, m: Main): nat {
    match m
    case Finished => |b.calls|
    case _ => m.start
  }

  /** Calls below it have been classified for good. */
  function Frontier(b: Batch, m: Main): nat {
    match m
    case Scan(start) => start
    case Serial(start) => start + 1
    case Finished => |b.calls|
    case _ => m.end
  }

  /** Calls below it have been handed to a worker, run, or filled in. */
  function Launched(b: Batch, m: Main): nat {
    match m
    case Scan(start) => start
    case Serial(start) => start + 1
    case Grow(start, _) => start
    case Join(_, end) => end
    case Finished => |b.calls|
    case _ => m.i
  }

  predicate InRange(m: Main) {
    m.Check? || m.Acquire? || m.Recheck? || m.Fill? || m.Join?
  }

  ghost predicate Shape(b: Batch, s: State) {
    && |s.results| == |b.calls|
    && Base(b, s.main) <= Launched(b, s.main) <= Frontier(b, s.main) <= |b.calls|
    && (InRange(s.main) || s.main.Grow? ==> Base(b, s.main) < Frontier(b, s.main))
    && (s.main.Acquire? || s.main.Recheck? ==> s.main.i < s.main.end)
    && (s.workers != map[] ==> InRange(s.main))
    && forall k :: k in s.workers ==> Base(b, s.main) <= k < Launched(b, s.main)
  }

  /** Calls i to j shared a range only if every one of them was answered parallel. */
  ghost predicate SharedOnlyIfParallel(home: seq<nat>, yes: set<nat>) {
    forall i, j, k :: 0 <= i <= k <= j < |home| && i < j && home[i] == home[j] ==> k in yes
  }

  ghost predicate HomesAt(home: seq<nat>, yes: set<nat>, base: nat, frontier: nat, together: bool) {
    && |home| == frontier
    && (forall k :: base <= k < |home| ==> home[k] == base)
    && (forall k :: 0 <= k < |home| && k < base ==> home[k] < base)
    && (together ==> forall k :: base <= k < |home| ==> k in yes)
    && SharedOnlyIfParallel(home, yes)
  }

  ghost predicate Homes(b: Batch, s: State) {
    && HomesAt(s.home, s.yes, Base(b, s.main), Frontier(b, s.main), InRange(s.main) || s.main.Grow?)
    && (forall k :: k in s.yes ==> k < |b.calls| && (k < |b.fixed| ==> b.fixed[k] != Some(false)))
  }

  /** A new call joins the range that starts at base, or opens its own. */
  lemma HomesPush(home: seq<nat>, yes: set<nat>, base: nat, frontier: nat, yes': set<nat>, together: bool)
    requires HomesAt(home, yes, base, frontier, base < frontier) && base <= frontier && yes <= yes'
    requires base < frontier || together ==> frontier in yes'
    ensures HomesAt(home + [base], yes', base, frontier + 1, together)
  {
    var h := home + [base];
    forall i, j, k | 0 <= i <= k <= j < |h| && i < j && h[i] == h[j] ensures k in yes' {
      if j < |home| {
        assert home[i] == home[j];
      }
    }
  }

  /** The next range starts where this one ends. */
  lemma HomesNext(home: seq<nat>, yes: set<nat>, base: nat, frontier: nat, together: bool)
    requires HomesAt(home, yes, base, frontier, together) && base < frontier
    ensures HomesAt(home, yes, frontier, frontier, false)
  {
  }

  function Holders(workers: map<nat, Worker>): set<nat> {
    set k | k in workers && workers[k] != Released
  }

  function Busy(workers: map<nat, Worker>): set<nat> {
    set k | k in workers && workers[k] == Running
  }

  /** Tokens in the slot channel are exactly the workers that hold one, and the one just taken. */
  ghost predicate Slots(b: Batch, s: State) {
    InRange(s.main) ==>
      && s.slots == |Holders(s.workers)| + (if s.main.Recheck? then 1 else 0)
      && s.slots <= b.maxConcurrency
  }

  ghost predicate Progress(b: Batch, s: State)
    requires |s.results| == |b.calls|
  {
    && (forall k :: 0 <= k < |b.calls| && k < Base(b, s.main) ==> s.results[k].Some?)
    && (forall k :: Base(b, s.main) <= k < |b.calls| && k < Launched(b, s.main) && s.results[k].None? ==>
          s.main == Serial(k) || (k in s.workers && s.workers[k] in {Spawned, Running}))
    && (forall k :: Launched(b, s.main) <= k < |b.calls| ==> s.results[k].None?)
    && (forall k :: k in s.workers && k < |b.calls| && s.workers[k] in {Spawned, Running} ==> s.results[k].None?)
    && (s.main.Serial? && s.main.start < |b.calls| ==> s.results[s.main.start].None?)
    && (forall k :: 0 <= k < |b.calls| && s.results[k].Some? ==> Answers(b.calls[k], s.results[k].value))
  }

  ghost predicate EndedBefore(log: seq<Event>, i: nat, p: nat) {
    exists q :: 0 <= q < p && q < |log| && log[q] == Ended(i)
  }

  ghost predicate InLog(log: seq<Event>, e: Event) {
    exists q :: 0 <= q < |log| && log[q] == e
  }

  ghost predicate AtMostOnce(log: seq<Event>) {
    forall p, q :: 0 <= p < q < |log| ==> log[p] != log[q]
  }

  /** Results and log agree; no slot is written twice; nothing begins twice. */
  ghost predicate Written(b: Batch, s: State)
    requires |s.results| == |b.calls|
  {
    && (forall k :: 0 <= k < |b.calls| ==> (s.results[k].Some? <==> InLog(s.log, Ended(k))))
    && AtMostOnce(s.log)
    && (forall p :: 0 <= p < |s.log| && s.log[p].Began? ==> s.log[p].k < Launched(b, s.main))
    && (forall k :: k in s.workers && s.workers[k] == Spawned ==> !InLog(s.log, Began(k)))
  }

  /** If j began before i (i < j) ended, both ran in the same range. */
  ghost predicate Barriers(s: State) {
    forall p, i :: 0 <= p < |s.log| && s.log[p].Began? && 0 <= i < s.log[p].k ==>
      EndedBefore(s.log, i, p) || (s.log[p].k < |s.home| && s.home[i] == s.home[s.log[p].k])
  }

  ghost predicate Inv(b: Batch, s: State) {
    Shape(b, s) && Homes(b, s) && Slots(b, s) && Progress(b, s) && Written(b, s) && Barriers(s)
  }

  lemma InitialInv(b: Batch, s: State)
    requires ValidBatch(b) && Initial(b, s)
    ensures Inv(b, s)
  {
  }

  // ---------------------------------------------------------------------------
  // Every step keeps it
  // ---------------------------------------------------------------------------

  predicate WorkerMove(step: Step) {
    step.WorkerCancelled? || step.WorkerEnters? || step.WorkerReturns? || step.WorkerReleases? || step.WorkerDone?
  }

  lemma ShapeWorker(b: Batch, s: State, step: Step)
    requires ValidBatch(b) && Enabled(b, s, step) && Shape(b, s) && WorkerMove(step)
    ensures Shape(b, Apply(b, s, step))
  {
  }

  lemma ShapeMain(b: Batch, s: State, step: Step)
    requires ValidBatch(b) && Enabled(b, s, step) && Shape(b, s) && !WorkerMove(step)
    ensures Shape(b, Apply(b, s, step))
  {
  }

  lemma KeepsShape(b: Batch, s: State, step: Step)
    requires ValidBatch(b) && Enabled(b, s, step) && Shape(b, s)
    ensures Shape(b, Apply(b, s, step))
  {
    hide Enabled, Apply, Shape;
    if WorkerMove(step) {
      ShapeWorker(b, s, step);
    } else {
      ShapeMain(b, s, step);
    }
  }

  lemma KeepsHomes(b: Batch, s: State, step: Step)
    requires ValidBatch(b) && Enabled(b, s, step) && Shape(b, s) && Homes(b, s)
    ensures Homes(b, Apply(b, s, step))
  {
    hide HomesAt;
    var t := Apply(b, s, step);
    match step {
      case AskStart(_) =>
        Relax(s.home, s.yes, s.main.start, s.main.start);
        HomesPush(s.home, s.yes, s.main.start, s.main.start, t.yes, t.main.Grow?);
      case AskNext(answer) =>
        if answer {
          HomesPush(s.home, s.yes, s.main.start, s.main.end, t.yes, true);
        }
      case SerialReturns(_) => HomesNext(s.home, s.yes, s.main.start, s.main.start + 1, false);
      case Joined => HomesNext(s.home, s.yes, s.main.start, s.main.end, true);
      case _ =>
    }
  }

  lemma Relax(home: seq<nat>, yes: set<nat>, base: nat, frontier: nat)
    requires HomesAt(home, yes, base, frontier, false) && base == frontier
    ensures HomesAt(home, yes, base, frontier, base < frontier)
  {
  }

  lemma SlotsWorker(b: Batch, s: State, step: Step)
    requires ValidBatch(b) && Enabled(b, s, step) && Shape(b, s) && Slots(b, s) && WorkerMove(step)
    ensures Slots(b, Apply(b, s, step))
  {
    var t := Apply(b, s, step);
    if step.WorkerReleases? {
      assert Holders(t.workers) == Holders(s.workers) - {step.k};
    } else {
      assert Holders(t.workers) == Holders(s.workers);
    }
  }

  lemma SlotsMain(b: Batch, s: State, step: Step)
    requires ValidBatch(b) && Enabled(b, s, step) && Shape(b, s) && Slots(b, s) && !WorkerMove(step)
    ensures Slots(b, Apply(b, s, step))
  {
    var t := Apply(b, s, step);
    match step {
      case Spawn => assert Holders(t.workers) == Holders(s.workers) + {s.main.i};
      case RangeComplete => assert Holders(t.workers) == {};
      case AskNext(_) => assert Holders(t.workers) == {};
      case _ =>
    }
  }

  lemma KeepsSlots(b: Batch, s: State, step: Step)
    requires ValidBatch(b) && Enabled(b, s, step) && Shape(b, s) && Slots(b, s)
    ensures Slots(b, Apply(b, s, step))
  {
    hide Enabled, Apply, Shape, Slots;
    if WorkerMove(step) {
      SlotsWorker(b, s, step);
    } else {
      SlotsMain(b, s, step);
    }
  }

  predicate MainMove(step: Step) {
    || step.Cancel? || step.AskStart? || step.AskNext? || step.RangeComplete? || step.SeeCancelled? || step.SeeLive?
    || step.TakeSlot? || step.GiveUpWaiting? || step.GiveBackSlot? || step.FillDone? || step.LoopDone? || step.AllScanned?
  }

  predicate AskMove(step: Step) {
    step.Cancel? || step.AskStart? || step.AskNext? || step.RangeComplete? || step.AllScanned?
  }

  lemma KeepsProgressAsk(b: Batch, s: State, step: Step)
    requires ValidBatch(b) && Enabled(b, s, step) && Shape(b, s) && Progress(b, s) && AskMove(step)
    ensures Shape(b, Apply(b, s, step)) && Progress(b, Apply(b, s, step))
  {
    KeepsShape(b, s, step);
  }

  lemma KeepsProgressLoop(b: Batch, s: State, step: Step)
    requires ValidBatch(b) && Enabled(b, s, step) && Shape(b, s) && Progress(b, s) && MainMove(step) && !AskMove(step)
    ensures Shape(b, Apply(b, s, step)) && Progress(b, Apply(b, s, step))
  {
    KeepsShape(b, s, step);
  }

  lemma KeepsProgressJoined(b: Batch, s: State, step: Step)
    requires ValidBatch(b) && Enabled(b, s, step) && Shape(b, s) && Progress(b, s)
    requires step.Joined?
    ensures Shape(b, Apply(b, s, step)) && Progress(b, Apply(b, s, step))
  {
    KeepsShape(b, s, step);
  }

  lemma KeepsProgressSpawn(b: Batch, s: State, step: Step)
    requires ValidBatch(b) && Enabled(b, s, step) && Shape(b, s) && Progress(b, s)
    requires step.Spawn?
    ensures Shape(b, Apply(b, s, step)) && Progress(b, Apply(b, s, step))
  {
    KeepsShape(b, s, step);
  }

  lemma KeepsProgressWorker(b: Batch, s: State, step: Step)
    requires ValidBatch(b) && Enabled(b, s, step) && Shape(b, s) && Progress(b, s)
    requires step.WorkerReleases? || step.WorkerEnters?
    ensures Shape(b, Apply(b, s, step)) && Progress(b, Apply(b, s, step))
  {
    KeepsShape(b, s, step);
  }

  lemma KeepsProgressDone(b: Batch, s: State, step: Step)
    requires ValidBatch(b) && Enabled(b, s, step) && Shape(b, s) && Progress(b, s)
    requires step.WorkerDone?
    ensures Shape(b, Apply(b, s, step)) && Progress(b, Apply(b, s, step))
  {
    KeepsShape(b, s, step);
  }

  lemma KeepsProgressSerial(b: Batch, s: State, step: Step)
    requires ValidBatch(b) && Enabled(b, s, step) && Shape(b, s) && Progress(b, s)
    requires step.SerialReturns?
    ensures Shape(b, Apply(b, s, step)) && Progress(b, Apply(b, s, step))
  {
    KeepsShape(b, s, step);
  }

  lemma KeepsProgressFill(b: Batch, s: State, step: Step)
    requires ValidBatch(b) && Enabled(b, s, step) && Shape(b, s) && Progress(b, s)
    requires step.FillOne?
    ensures Shape(b, Apply(b, s, step)) && Progress(b, Apply(b, s, step))
  {
    KeepsShape(b, s, step);
  }

  lemma ProgressStored(b: Batch, s: State, t: State, k: nat, r: Response)
    requires Shape(b, s) && Progress(b, s) && k in s.workers && k < |b.calls| && Answers(b.calls[k], r)
    requires t.main == s.main && t.results == s.results[k := Some(r)] && t.workers == s.workers[k := Stored]
    ensures Progress(b, t)
  {
  }

  lemma KeepsProgressStore(b: Batch, s: State, step: Step)
    requires ValidBatch(b) && Enabled(b, s, step) && Shape(b, s) && Progress(b, s)
    requires step.WorkerCancelled? || step.WorkerReturns?
    ensures Shape(b, Apply(b, s, step)) && Progress(b, Apply(b, s, step))
  {
    hide Shape, Progress;
    KeepsShape(b, s, step);
    ResultsFit(b, s);
    var r := if step.WorkerReturns? then step.r else FailureResponse(b.calls[step.k], s.ended.value);
    ProgressStored(b, s, Apply(b, s, step), step.k, r);
  }

  lemma ResultsFit(b: Batch, s: State)
    requires Shape(b, s)
    ensures |s.results| == |b.calls|
  {
  }

  lemma LogPush(log: seq<Event>, e: Event)
    ensures forall x :: InLog(log + [e], x) <==> InLog(log, x) || x == e
    ensures forall i: nat, p: nat :: p <= |log| ==> (EndedBefore(log + [e], i, p) <==> EndedBefore(log, i, p))
    ensures !InLog(log, e) && AtMostOnce(log) ==> AtMostOnce(log + [e])
  {
    var l := log + [e];
    assert l[|log|] == e;
    forall x ensures InLog(l, x) <==> InLog(log, x) || x == e {
      if InLog(log, x) {
        var q :| 0 <= q < |log| && log[q] == x;
        assert l[q] == x;
      }
    }
    forall i: nat, p: nat | p <= |log| ensures EndedBefore(l, i, p) <==> EndedBefore(log, i, p) {
      if EndedBefore(log, i, p) {
        var q :| 0 <= q < p && q < |log| && log[q] == Ended(i);
        assert l[q] == Ended(i);
      }
      if EndedBefore(l, i, p) {
        var q :| 0 <= q < p && q < |l| && l[q] == Ended(i);
        assert log[q] == Ended(i);
      }
    }
  }

  /** Steps that write neither a result nor a log entry. */
  lemma KeepsWrittenQuiet(b: Batch, s: State, step: Step)
    requires ValidBatch(b) && Enabled(b, s, step) && Shape(b, s) && Written(b, s)
    requires !(step.SerialReturns? || step.FillOne? || step.WorkerCancelled? || step.WorkerReturns?)
    requires !((step.AskStart? && !step.answer) || step.WorkerEnters?)
    ensures Shape(b, Apply(b, s, step)) && Written(b, Apply(b, s, step))
  {
    KeepsShape(b, s, step);
    var t := Apply(b, s, step);
    assert t.results == s.results;
    assert Launched(b, t.main) >= Launched(b, s.main);
  }

  lemma KeepsWrittenBegin(b: Batch, s: State, step: Step)
    requires ValidBatch(b) && Enabled(b, s, step) && Shape(b, s) && Written(b, s)
    requires (step.AskStart? && !step.answer) || step.WorkerEnters?
    ensures Shape(b, Apply(b, s, step)) && Written(b, Apply(b, s, step))
  {
    KeepsShape(b, s, step);
    var k := if step.AskStart? then s.main.start else step.k;
    LogPush(s.log, Began(k));
  }

  lemma WrittenStored(b: Batch, s: State, t: State, k: nat)
    requires |s.results| == |b.calls| == |t.results| && Written(b, s) && k < |b.calls| && s.results[k].None?
    requires Launched(b, s.main) <= Launched(b, t.main)
    requires t.results[k].Some? && forall j :: 0 <= j < |b.calls| && j != k ==> t.results[j] == s.results[j]
    requires t.log == s.log + [Ended(k)]
    requires forall j :: j in t.workers && t.workers[j] == Spawned ==> j in s.workers && s.workers[j] == Spawned
    ensures Written(b, t)
  {
    LogPush(s.log, Ended(k));
  }

  lemma KeepsWrittenStore(b: Batch, s: State, step: Step)
    requires ValidBatch(b) && Enabled(b, s, step) && Shape(b, s) && Progress(b, s) && Written(b, s)
    requires step.SerialReturns? || step.FillOne? || step.WorkerCancelled? || step.WorkerReturns?
    ensures Shape(b, Apply(b, s, step)) && Written(b, Apply(b, s, step))
  {
    hide Written;
    KeepsShape(b, s, step);
    var k := if step.SerialReturns? then s.main.start else if step.FillOne? then s.main.i else step.k;
    WrittenStored(b, s, Apply(b, s, step), k);
  }

  /** A call that begins finds every earlier call of another range ended. */
  lemma BeginKeepsBarriers(b: Batch, s: State, step: Step)
    requires ValidBatch(b) && Enabled(b, s, step) && ((step.AskStart? && !step.answer) || step.WorkerEnters?)
    requires Shape(b, s) && Homes(b, s) && Progress(b, s) && Written(b, s) && Barriers(s)
    ensures Barriers(Apply(b, s, step))
  {
    var k := if step.AskStart? then s.main.start else step.k;
    LogPush(s.log, Began(k));
    hide InLog, AtMostOnce;
    forall i | 0 <= i < k && i < Base(b, s.main) ensures EndedBefore(s.log, i, |s.log|) {
      assert s.results[i].Some? && InLog(s.log, Ended(i));
      LoggedBefore(s.log, i);
    }
  }

  lemma LoggedBefore(log: seq<Event>, i: nat)
    requires InLog(log, Ended(i))
    ensures EndedBefore(log, i, |log|)
  {
  }

  lemma QuietKeepsBarriers(s: State, t: State)
    requires Barriers(s) && |s.home| <= |t.home| && t.home[..|s.home|] == s.home
    requires t.log == s.log || exists k :: t.log == s.log + [Ended(k)]
    requires forall p :: 0 <= p < |s.log| && s.log[p].Began? ==> s.log[p].k < |s.home|
    ensures Barriers(t)
  {
    if t.log != s.log {
      var k :| t.log == s.log + [Ended(k)];
      LogPush(s.log, Ended(k));
    }
    assert forall i :: 0 <= i < |s.home| ==> s.home[i] == t.home[i];
  }

  lemma NoneBegins(b: Batch, s: State, step: Step)
    requires ValidBatch(b) && Enabled(b, s, step) && !((step.AskStart? && !step.answer) || step.WorkerEnters?)
    ensures var t := Apply(b, s, step);
            && |s.home| <= |t.home| && t.home[..|s.home|] == s.home
            && (t.log == s.log || exists k :: t.log == s.log + [Ended(k)])
  {
  }

  lemma BegunHasHome(b: Batch, s: State)
    requires ValidBatch(b) && Shape(b, s) && Homes(b, s) && Written(b, s)
    ensures forall p :: 0 <= p < |s.log| && s.log[p].Began? ==> s.log[p].k < |s.home|
  {
  }

  lemma KeepsInv(b: Batch, s: State, step: Step)
    requires ValidBatch(b) && Enabled(b, s, step) && Inv(b, s)
    ensures Inv(b, Apply(b, s, step))
  {
    hide Enabled, Shape, Homes, Slots, Progress, Written, Barriers, Apply;
    ResultsFit(b, s);
    KeepsShape(b, s, step);
    KeepsHomes(b, s, step);
    KeepsSlots(b, s, step);
    if AskMove(step) {
      KeepsProgressAsk(b, s, step);
    } else if MainMove(step) {
      KeepsProgressLoop(b, s, step);
    } else {
      match step {
        case Joined => KeepsProgressJoined(b, s, step);
        case Spawn => KeepsProgressSpawn(b, s, step);
        case SerialReturns(_) => KeepsProgressSerial(b, s, step);
        case FillOne => KeepsProgressFill(b, s, step);
        case WorkerDone(_) => KeepsProgressDone(b, s, step);
        case WorkerCancelled(_) => KeepsProgressStore(b, s, step);
        case WorkerReturns(_, _) => KeepsProgressStore(b, s, step);
        case WorkerReleases(_) => KeepsProgressWorker(b, s, step);
        case WorkerEnters(_) => KeepsProgressWorker(b, s, step);
      }
    }
    if (step.AskStart? && !step.answer) || step.WorkerEnters? {
      KeepsWrittenBegin(b, s, step);
      BeginKeepsBarriers(b, s, step);
    } else {
      if step.SerialReturns? || step.FillOne? || step.WorkerCancelled? || step.WorkerReturns? {
        KeepsWrittenStore(b, s, step);
      } else {
        KeepsWrittenQuiet(b, s, step);
      }
      NoneBegins(b, s, step);
      BegunHasHome(b, s);
      QuietKeepsBarriers(s, Apply(b, s, step));
    }
    Combine(b, Apply(b, s, step));
  }

  lemma Combine(b: Batch, s: State)
    requires Shape(b, s) && Homes(b, s) && Slots(b, s) && Progress(b, s) && Written(b, s) && Barriers(s)
    ensures Inv(b, s)
  {
  }

  lemma {:induction false} ScheduleInv(b: Batch, run: seq<State>, n: nat)
    requires ValidBatch(b) && Schedule(b, run) && n < |run|
    ensures Inv(b, run[n])
  {
    hide Inv, Initial, Enabled, Apply;
    if n == 0 {
      InitialInv(b, run[0]);
    } else {
      ScheduleInv(b, run, n - 1);
      assert Next(b, run[n - 1], run[n - 1 + 1]);
      var step :| Enabled(b, run[n - 1], step) && run[n] == Apply(b, run[n - 1], step);
      KeepsInv(b, run[n - 1], step);
    }
  }

  // ---------------------------------------------------------------------------
  // Main results, for every schedule
  // ---------------------------------------------------------------------------

  /** Mutation barrier: if any call from i to j is never answered parallel (i and j included), then i
      has ended before j begins. */
  lemma MutationBarrier(b: Batch, run: seq<State>, n: nat, i: nat, m: nat, j: nat, p: nat)
    requires ValidBatch(b) && Schedule(b, run) && n < |run|
    requires i <= m <= j < |b.calls| && i < j && b.fixed[m] == Some(false)
    requires p < |run[n].log| && run[n].log[p] == Began(j)
    ensures EndedBefore(run[n].log, i, p)
  {
    ScheduleInv(b, run, n);
    var s := run[n];
    assert EndedBefore(s.log, i, p) || m in s.yes;
  }

  /** Two calls overlap only inside one range, all of which was answered parallel. */
  lemma OverlapIsParallel(b: Batch, run: seq<State>, n: nat, i: nat, j: nat, p: nat)
    requires ValidBatch(b) && Schedule(b, run) && n < |run| && i < j
    requires p < |run[n].log| && run[n].log[p] == Began(j) && !EndedBefore(run[n].log, i, p)
    ensures forall k :: i <= k <= j ==> k in run[n].yes
  {
    ScheduleInv(b, run, n);
  }

  /** Never more calls at work than the bound, whatever the scheduler does. */
  lemma BoundedConcurrency(b: Batch, run: seq<State>, n: nat)
    requires ValidBatch(b) && Schedule(b, run) && n < |run|
    ensures |Busy(run[n].workers)| + (if run[n].main.Serial? then 1 else 0) <= b.maxConcurrency
  {
    ScheduleInv(b, run, n);
    var w := run[n].workers;
    if w == map[] {
      assert Busy(w) == {};
    } else {
      SubsetSize(Busy(w), Holders(w));
    }
  }

  lemma {:induction false} SubsetSize(a: set<nat>, c: set<nat>)
    requires a <= c
    ensures |a| <= |c|
  {
    if a != {} {
      var x :| x in a;
      SubsetSize(a - {x}, c - {x});
    }
  }

  /** When the batch returns, every slot holds an answer to its own request, written exactly once,
      no call began twice, and no goroutine is left. */
  lemma BatchComplete(b: Batch, run: seq<State>, n: nat)
    requires ValidBatch(b) && Schedule(b, run) && n < |run| && run[n].main.Finished?
    ensures var s := run[n];
            && |s.results| == |b.calls| && s.workers == map[] && AtMostOnce(s.log)
            && forall k :: 0 <= k < |b.calls| ==>
                 s.results[k].Some? && Answers(b.calls[k], s.results[k].value) && InLog(s.log, Ended(k))
  {
    ScheduleInv(b, run, n);
  }

  /** A worker that has a slot to take takes it: a slot is given exactly while fewer than the bound are held. */
  lemma SlotGivenExactly(b: Batch, run: seq<State>, n: nat)
    requires ValidBatch(b) && Schedule(b, run) && n < |run| && run[n].main.Acquire?
    ensures (exists t :: Next(b, run[n], t) && t.main.Recheck?) <==> |Holders(run[n].workers)| < b.maxConcurrency
  {
    hide Homes, Progress, Written, Barriers;
    ScheduleInv(b, run, n);
    var s := run[n];
    if s.slots < b.maxConcurrency {
      assert Enabled(b, s, TakeSlot);
      assert Next(b, s, Apply(b, s, TakeSlot));
    }
  }

  /** A call that was handed to a worker can begin exactly while the context is live. */
  lemma WorkerBeginsExactly(b: Batch, run: seq<State>, n: nat, k: nat)
    requires ValidBatch(b) && Schedule(b, run) && n < |run| && k in run[n].workers && run[n].workers[k] == Spawned
    ensures (exists t :: Next(b, run[n], t) && t.log == run[n].log + [Began(k)]) <==> run[n].ended.None?
  {
    ScheduleInv(b, run, n);
    var s := run[n];
    hide Homes, Slots, Progress, Written, Barriers;
    assert |s.log + [Began(k)]| == |s.log| + 1 && (s.log + [Began(k)])[|s.log|] == Began(k);
    if s.ended.None? {
      assert Enabled(b, s, WorkerEnters(k));
      assert Next(b, s, Apply(b, s, WorkerEnters(k)));
    } else {
      forall t | Next(b, s, t) ensures t.log != s.log + [Began(k)] {
        var step :| Enabled(b, s, step) && t == Apply(b, s, step);
        OnlySerialBegins(b, s, step, k);
      }
    }
  }

  lemma OnlySerialBegins(b: Batch, s: State, step: Step, k: nat)
    requires ValidBatch(b) && Enabled(b, s, step) && Shape(b, s) && s.ended.Some? && k in s.workers
    ensures Apply(b, s, step).log != s.log + [Began(k)]
  {
    assert (s.log + [Began(k)])[|s.log|] == Began(k);
    assert |s.log + [Began(k)]| == |s.log| + 1;
  }

  /** A call can be handed to a worker exactly while the context is live, and with a slot in hand. */
  lemma SpawnsExactly(b: Batch, run: seq<State>, n: nat)
    requires ValidBatch(b) && Schedule(b, run) && n < |run|
    ensures (exists t :: Next(b, run[n], t) && !(t.workers.Keys <= run[n].workers.Keys))
       <==> run[n].main.Recheck? && run[n].ended.None?
  {
    hide Homes, Slots, Progress, Written, Barriers, Apply, Shape;
    ScheduleInv(b, run, n);
    var s := run[n];
    forall t | Next(b, s, t) && !(t.workers.Keys <= s.workers.Keys) ensures s.main.Recheck? && s.ended.None? {
      var step :| Enabled(b, s, step) && t == Apply(b, s, step);
      if !step.Spawn? {
        OnlySpawnAdds(b, s, step);
      }
    }
    if s.main.Recheck? && s.ended.None? {
      SpawnAdds(b, s);
    }
  }

  lemma OnlySpawnAdds(b: Batch, s: State, step: Step)
    requires ValidBatch(b) && Enabled(b, s, step) && !step.Spawn?
    ensures Apply(b, s, step).workers.Keys <= s.workers.Keys
  {
  }

  lemma SpawnAdds(b: Batch, s: State)
    requires ValidBatch(b) && Shape(b, s) && s.main.Recheck? && s.ended.None?
    ensures exists t :: Next(b, s, t) && !(t.workers.Keys <= s.workers.Keys)
  {
    var t := Apply(b, s, Spawn);
    assert s.main.i in t.workers.Keys && s.main.i !in s.workers.Keys;
    assert Next(b, s, t);
  }

  // ---------------------------------------------------------------------------
  // What each slot holds
  // ---------------------------------------------------------------------------

  /** The answer of a call that err kept from running: an error, in every field that can say so. */
  predicate Refused(call: Request, r: Response, err: Error) {
    && r.id == call.id && r.name == call.name && r.denial == None && r.err == Some(err)
    && r.result == Some(ToolResult([TextContent("Error: " + err)], true, err))
  }

  /** Calls at work have begun, and a slot filled for a call that never began holds the error of the context. */
  ghost predicate Honest(b: Batch, s: State)
    requires |s.results| == |b.calls|
  {
    && (s.main.Fill? ==> s.ended == Some(s.main.err))
    && (s.main.Serial? ==> InLog(s.log, Began(s.main.start)))
    && (forall k :: k in s.workers && s.workers[k] == Running ==> InLog(s.log, Began(k)))
    && (forall k :: 0 <= k < |b.calls| && s.results[k].Some? && !InLog(s.log, Began(k)) ==>
          s.ended.Some? && Refused(b.calls[k], s.results[k].value, s.ended.value))
  }

  lemma HonestQuiet(b: Batch, s: State, step: Step)
    requires ValidBatch(b) && Enabled(b, s, step) && Shape(b, s) && Honest(b, s)
    requires MainMove(step) || step.Joined? || step.Spawn? || step.WorkerReleases? || step.WorkerDone? || step.WorkerEnters?
    ensures |Apply(b, s, step).results| == |b.calls| && Honest(b, Apply(b, s, step))
  {
    hide Shape, InLog;
    ResultsFit(b, s);
    if (step.AskStart? && !step.answer) || step.WorkerEnters? {
      LogPush(s.log, Began(if step.AskStart? then s.main.start else step.k));
    }
  }

  lemma HonestStored(b: Batch, s: State, step: Step)
    requires ValidBatch(b) && Enabled(b, s, step) && Shape(b, s) && Honest(b, s)
    requires step.SerialReturns? || step.FillOne? || step.WorkerCancelled? || step.WorkerReturns?
    ensures |Apply(b, s, step).results| == |b.calls| && Honest(b, Apply(b, s, step))
  {
    hide Shape, InLog;
    ResultsFit(b, s);
    LogPush(s.log, Ended(if step.SerialReturns? then s.main.start else if step.FillOne? then s.main.i else step.k));
  }

  lemma {:induction false} ScheduleHonest(b: Batch, run: seq<State>, n: nat)
    requires ValidBatch(b) && Schedule(b, run) && n < |run|
    ensures |run[n].results| == |b.calls| && Honest(b, run[n])
  {
    hide Homes, Slots, Progress, Written, Barriers, Enabled, Apply;
    if n > 0 {
      ScheduleHonest(b, run, n - 1);
      ScheduleInv(b, run, n - 1);
      assert Next(b, run[n - 1], run[n - 1 + 1]);
      var step :| Enabled(b, run[n - 1], step) && run[n] == Apply(b, run[n - 1], step);
      if step.SerialReturns? || step.FillOne? || step.WorkerCancelled? || step.WorkerReturns? {
        HonestStored(b, run[n - 1], step);
      } else {
        HonestQuiet(b, run[n - 1], step);
      }
    }
  }

  /** A call that never began is answered as cancelled: the error of the context is its error, the error
      of its result and, after "Error: ", the one text of its result, which is marked as an error. */
  lemma NeverBegunIsCancelled(b: Batch, run: seq<State>, n: nat, k: nat)
    requires ValidBatch(b) && Schedule(b, run) && n < |run| && run[n].main.Finished?
    requires k < |b.calls| && !exists p :: 0 <= p < |run[n].log| && run[n].log[p] == Began(k)
    ensures |run[n].results| == |b.calls| && run[n].results[k].Some? && run[n].ended.Some?
    ensures var r, e := run[n].results[k].value, run[n].ended.value;
            && r.id == b.calls[k].id && r.name == b.calls[k].name && r.denial == None && r.err == Some(e)
            && r.result.Some? && r.result.value.isError && r.result.value.error == e
            && r.result.value.content == [TextContent("Error: " + e)]
  {
    hide Shape, Homes, Slots, Progress, Written, Barriers;
    BatchComplete(b, run, n);
    ScheduleHonest(b, run, n);
    assert !InLog(run[n].log, Began(k));
  }

  /** One step of a schedule in which the call of slot k returns what[k]. */
  ghost predicate NextReturning(b: Batch, s: State, t: State, what: seq<Response>)
    requires ValidBatch(b) && |what| == |b.calls|
  {
    exists step :: Enabled(b, s, step) && t == Apply(b, s, step)
      && (step.SerialReturns? && s.main.start < |what| ==> step.r == what[s.main.start])
      && (step.WorkerReturns? && step.k < |what| ==> step.r == what[step.k])
  }

  ghost predicate ScheduleReturning(b: Batch, run: seq<State>, what: seq<Response>)
    requires ValidBatch(b) && |what| == |b.calls|
  {
    && |run| > 0 && Initial(b, run[0])
    && forall k :: 0 <= k < |run| - 1 ==> NextReturning(b, run[k], run[k + 1], what)
  }

  lemma ReturningIsSchedule(b: Batch, run: seq<State>, what: seq<Response>)
    requires ValidBatch(b) && |what| == |b.calls| && ScheduleReturning(b, run, what)
    ensures Schedule(b, run)
  {
    hide Enabled, Apply, Initial;
    forall k | 0 <= k < |run| - 1 ensures Next(b, run[k], run[k + 1]) {
      assert NextReturning(b, run[k], run[k + 1], what);
    }
  }

  ghost predicate Kept(b: Batch, s: State, what: seq<Response>)
    requires |s.results| == |b.calls| == |what|
  {
    forall k :: 0 <= k < |b.calls| && s.results[k].Some? && InLog(s.log, Began(k)) ==> s.results[k] == Some(what[k])
  }

  lemma KeptStored(b: Batch, s: State, t: State, what: seq<Response>, k: nat)
    requires |s.results| == |b.calls| == |what| && Kept(b, s, what) && k < |b.calls|
    requires |t.results| == |what| && t.results == s.results[k := t.results[k]] && t.log == s.log + [Ended(k)]
    requires t.results[k] == Some(what[k]) || !InLog(s.log, Began(k))
    ensures Kept(b, t, what)
  {
    hide InLog;
    LogPush(s.log, Ended(k));
  }

  lemma KeptBegun(b: Batch, s: State, t: State, what: seq<Response>, k: nat)
    requires |s.results| == |b.calls| == |what| && Kept(b, s, what) && k < |b.calls| && s.results[k].None?
    requires t.results == s.results && t.log == s.log + [Began(k)]
    ensures Kept(b, t, what)
  {
    hide InLog;
    LogPush(s.log, Began(k));
  }

  lemma StepKeepsKept(b: Batch, s: State, step: Step, what: seq<Response>)
    requires ValidBatch(b) && Enabled(b, s, step) && |s.results| == |b.calls| == |what| && Kept(b, s, what)
    requires Shape(b, s) && Progress(b, s) && Written(b, s)
    requires step.SerialReturns? && s.main.start < |what| ==> step.r == what[s.main.start]
    requires step.WorkerReturns? && step.k < |what| ==> step.r == what[step.k]
    ensures |Apply(b, s, step).results| == |b.calls| && Kept(b, Apply(b, s, step), what)
  {
    var t := Apply(b, s, step);
    hide Kept, AtMostOnce;
    if step.SerialReturns? || step.FillOne? || step.WorkerCancelled? || step.WorkerReturns? {
      KeptStored(b, s, t, what, if step.SerialReturns? then s.main.start else if step.FillOne? then s.main.i else step.k);
    } else if (step.AskStart? && !step.answer) || step.WorkerEnters? {
      KeptBegun(b, s, t, what, if step.AskStart? then s.main.start else step.k);
    } else {
      KeptQuiet(b, s, t, what);
    }
  }

  lemma KeptQuiet(b: Batch, s: State, t: State, what: seq<Response>)
    requires |s.results| == |b.calls| == |what| && Kept(b, s, what) && t.results == s.results && t.log == s.log
    ensures Kept(b, t, what)
  {
  }

  lemma {:induction false} ScheduleKept(b: Batch, run: seq<State>, what: seq<Response>, n: nat)
    requires ValidBatch(b) && |what| == |b.calls| && ScheduleReturning(b, run, what) && n < |run|
    ensures |run[n].results| == |b.calls| && Kept(b, run[n], what)
  {
    hide Homes, Shape, Slots, Progress, Written, Barriers, Apply;
    if n > 0 {
      ScheduleKept(b, run, what, n - 1);
      ReturningIsSchedule(b, run, what);
      ScheduleInv(b, run, n - 1);
      assert NextReturning(b, run[n - 1], run[n - 1 + 1], what);
      var s := run[n - 1];
      var step :| Enabled(b, s, step) && run[n] == Apply(b, s, step)
                && (step.SerialReturns? && s.main.start < |what| ==> step.r == what[s.main.start])
                && (step.WorkerReturns? && step.k < |what| ==> step.r == what[step.k]);
      StepKeepsKept(b, s, step, what);
    }
  }

  /** Whatever the calls of a batch return and in whatever order they finish, each slot whose call began
      holds in the end what its own call returned. */
  lemma BegunIsReturned(b: Batch, run: seq<State>, what: seq<Response>, n: nat, k: nat, p: nat)
    requires ValidBatch(b) && |what| == |b.calls| && ScheduleReturning(b, run, what)
    requires n < |run| && run[n].main.Finished?
    requires k < |b.calls| && p < |run[n].log| && run[n].log[p] == Began(k)
    ensures k < |run[n].results| && run[n].results[k] == Some(what[k])
  {
    hide Shape, Homes, Slots, Progress, Written, Barriers, Enabled, Apply;
    ReturningIsSchedule(b, run, what);
    BatchComplete(b, run, n);
    ScheduleKept(b, run, what, n);
    assert InLog(run[n].log, Began(k));
  }

  /** A result, once written, is never written again. */
  lemma WriteOnce(b: Batch, run: seq<State>, n: nat, k: nat)
    requires ValidBatch(b) && Schedule(b, run) && n + 1 < |run| && k < |b.calls|
    requires k < |run[n].results| && run[n].results[k].Some?
    ensures k < |run[n + 1].results| && run[n + 1].results[k] == run[n].results[k]
  {
    hide Enabled, Apply, Shape, Homes, Slots, Progress, Written, Barriers;
    ScheduleInv(b, run, n);
    assert Next(b, run[n], run[n + 1]);
    var step :| Enabled(b, run[n], step) && run[n + 1] == Apply(b, run[n], step);
    StepKeepsResult(b, run[n], step, k);
  }

  lemma StepKeepsResult(b: Batch, s: State, step: Step, k: nat)
    requires ValidBatch(b) && Enabled(b, s, step) && Shape(b, s) && Progress(b, s)
    requires k < |s.results| && s.results[k].Some?
    ensures var t := Apply(b, s, step); k < |t.results| && t.results[k] == s.results[k]
  {
  }

  // ---------------------------------------------------------------------------
  // Termination
  // ---------------------------------------------------------------------------

  function WorkerRank(w: Worker): nat {
    match w
    case Spawned => 4
    case Running => 3
    case Stored => 2
    case Released => 1
  }

  function WorkersRank(workers: map<nat, Worker>, n: nat): nat {
    if n == 0 then 0
    else WorkersRank(workers, n - 1) + if n - 1 in workers then WorkerRank(workers[n - 1]) else 0
  }

  function MainRank(n: nat, m: Main): int {
    match m
    case Scan(start) => 30 * (n - start) + 1
    case Serial(start) => 30 * (n - start)
    case Grow(start, end) => 30 * (n - end) + 15 * (end - start) + 10
    case Check(_, end, i) => 30 * (n - end) + 15 * (end - i) + 9
    case Acquire(_, end, i) => 30 * (n - end) + 15 * (end - i) + 8
    case Recheck(_, end, i) => 30 * (n - end) + 15 * (end - i) + 7
    case Fill(_, end, i, _) => 30 * (n - end) + 15 * (end - i) + 6
    case Join(_, end) => 30 * (n - end) + 5
    case Finished => 0
  }

  /** Steps left at most. */
  function Rank(b: Batch, s: State): int {
    MainRank(|b.calls|, s.main) + WorkersRank(s.workers, |b.calls|) + if s.ended.Some? then 0 else 1
  }

  lemma {:induction false} RankUpdate(w: map<nat, Worker>, w': map<nat, Worker>, k: nat, n: nat)
    requires forall x :: x != k ==> (x in w <==> x in w') && (x in w && x in w' ==> w[x] == w'[x])
    ensures WorkersRank(w', n) - WorkersRank(w, n)
         == if k < n then (if k in w' then WorkerRank(w'[k]) else 0) - (if k in w then WorkerRank(w[k]) else 0) else 0
  {
    if n > 0 {
      RankUpdate(w, w', k, n - 1);
    }
  }

  /** Every step of every schedule uses up rank, even when the safety predicate changes its mind. */
  lemma RankDecreases(b: Batch, s: State, step: Step)
    requires ValidBatch(b) && Enabled(b, s, step) && Inv(b, s)
    ensures 0 <= Rank(b, Apply(b, s, step)) < Rank(b, s)
  {
    hide Homes, Slots, Progress, Written, Barriers;
    KeepsShape(b, s, step);
    RankNonNegative(b, Apply(b, s, step));
    if MainMove(step) || step.Joined? || step.SerialReturns? || step.FillOne? {
      RankMainMove(b, s, step);
    } else {
      RankWorkerMove(b, s, step);
    }
  }

  lemma RankNonNegative(b: Batch, s: State)
    requires Shape(b, s)
    ensures Rank(b, s) >= 0
  {
  }

  lemma RankMainMove(b: Batch, s: State, step: Step)
    requires ValidBatch(b) && Enabled(b, s, step) && Shape(b, s)
    requires MainMove(step) || step.Joined? || step.SerialReturns? || step.FillOne?
    ensures Rank(b, Apply(b, s, step)) < Rank(b, s)
  {
    assert Apply(b, s, step).workers == s.workers;
  }

  lemma RankWorkerMove(b: Batch, s: State, step: Step)
    requires ValidBatch(b) && Enabled(b, s, step) && Shape(b, s)
    requires !(MainMove(step) || step.Joined? || step.SerialReturns? || step.FillOne?)
    ensures Rank(b, Apply(b, s, step)) < Rank(b, s)
  {
    var t := Apply(b, s, step);
    match step {
      case Spawn => RankUpdate(s.workers, t.workers, s.main.i, |b.calls|);
      case WorkerCancelled(k) => RankUpdate(s.workers, t.workers, k, |b.calls|);
      case WorkerEnters(k) => RankUpdate(s.workers, t.workers, k, |b.calls|);
      case WorkerReturns(k, _) => RankUpdate(s.workers, t.workers, k, |b.calls|);
      case WorkerReleases(k) => RankUpdate(s.workers, t.workers, k, |b.calls|);
      case WorkerDone(k) => RankUpdate(s.workers, t.workers, k, |b.calls|);
      case _ =>
    }
  }

  /** No schedule is longer than the rank of its first state. */
  lemma {:induction false} SchedulesAreFinite(b: Batch, run: seq<State>, n: nat)
    requires ValidBatch(b) && Schedule(b, run) && n < |run|
    ensures 0 <= Rank(b, run[n]) <= Rank(b, run[0]) - n
    ensures Rank(b, run[0]) <= 30 * |b.calls| + 2
  {
    hide Inv, Enabled, Apply;
    if n == 0 {
      assert WorkersRank(map[], |b.calls|) == 0 by { NoWorkers(|b.calls|); }
    } else {
      SchedulesAreFinite(b, run, n - 1);
      ScheduleInv(b, run, n - 1);
      assert Next(b, run[n - 1], run[n - 1 + 1]);
      var step :| Enabled(b, run[n - 1], step) && run[n] == Apply(b, run[n - 1], step);
      RankDecreases(b, run[n - 1], step);
    }
  }

  lemma {:induction false} NoWorkers(n: nat)
    ensures WorkersRank(map[], n) == 0
  {
    if n > 0 {
      NoWorkers(n - 1);
    }
  }

  /** A worker that is there can always move: each state of a worker has its step. */
  lemma WorkerCanMove(b: Batch, s: State, k: nat)
    requires ValidBatch(b) && Shape(b, s) && Slots(b, s) && k in s.workers
    ensures exists step :: Enabled(b, s, step)
  {
    var step := match s.workers[k]
      case Spawned => if s.ended.Some? then WorkerCancelled(k) else WorkerEnters(k)
      case Running => WorkerReturns(k, FailureResponse(b.calls[k], ""))
      case Stored => WorkerReleases(k)
      case Released => WorkerDone(k);
    if s.workers[k] == Stored {
      assert k in Holders(s.workers);
    }
    assert Enabled(b, s, step);
  }

  function Answer(b: Batch, k: nat): bool
    requires ValidBatch(b) && k < |b.calls|
  {
    b.fixed[k].Some? ==> b.fixed[k].value
  }

  lemma MainCanMove(b: Batch, s: State)
    requires ValidBatch(b) && Shape(b, s) && Slots(b, s) && s.workers == map[] && !s.main.Finished?
    ensures exists step :: Enabled(b, s, step)
  {
    assert Holders(s.workers) == {};
    var n := |b.calls|;
    var step := match s.main
      case Scan(start) => if start < n then AskStart(Answer(b, start)) else AllScanned
      case Serial(start) => SerialReturns(FailureResponse(b.calls[start], ""))
      case Grow(_, end) => if end < n then AskNext(Answer(b, end)) else RangeComplete
      case Check(_, end, i) => if i >= end then LoopDone else if s.ended.Some? then SeeCancelled else SeeLive
      case Acquire(_, _, _) => TakeSlot
      case Recheck(_, _, _) => if s.ended.Some? then GiveBackSlot else Spawn
      case Fill(_, end, i, _) => if i < end then FillOne else FillDone
      case Join(_, _) => Joined
      case Finished => AllScanned;
    assert Enabled(b, s, step);
  }

  /** No deadlock: as long as tools return, an unfinished batch can always move. */
  lemma NeverStuck(b: Batch, s: State)
    requires ValidBatch(b) && Inv(b, s) && !s.main.Finished?
    ensures exists step :: Enabled(b, s, step)
  {
    hide Enabled, Shape, Slots, Homes, Progress, Written, Barriers;
    if s.workers != map[] {
      var k :| k in s.workers;
      WorkerCanMove(b, s, k);
    } else {
      MainCanMove(b, s);
    }
  }

  /** Every schedule can be carried on to the end of its batch, from wherever it stands. */
  lemma {:induction false} CanFinish(b: Batch, run: seq<State>) returns (more: seq<State>)
    requires ValidBatch(b) && Schedule(b, run)
    ensures Schedule(b, more) && run <= more && more[|more| - 1].main.Finished?
    decreases Rank(b, run[|run| - 1])
  {
    hide Inv, Enabled, Apply, Initial, Rank;
    var s := run[|run| - 1];
    ScheduleInv(b, run, |run| - 1);
    if s.main.Finished? {
      more := run;
    } else {
      NeverStuck(b, s);
      var step :| Enabled(b, s, step);
      RankDecreases(b, s, step);
      var next := run + [Apply(b, s, step)];
      forall k | 0 <= k < |next| - 1 ensures Next(b, next[k], next[k + 1]) {
        if k < |run| - 1 {
          assert Next(b, run[k], run[k + 1]);
        }
      }
      more := CanFinish(b, next);
    }
  }

  /** Whatever is asked, and however few calls may run at once, there is a schedule that finishes. */
  lemma EveryBatchFinishes(b: Batch) returns (run: seq<State>)
    requires ValidBatch(b)
    ensures Schedule(b, run) && run[|run| - 1].main.Finished?
  {
    var start := State(Scan(0), map[], 0, None, seq(|b.calls|, k => None), [], {}, []);
    assert Initial(b, start);
    run := CanFinish(b, [start]);
  }
}
