/**
 One run from creation to its terminal state: the executing task, the telemetry
 task beside it, and a canceller, interleaved in every way. The abort of the
 telemetry task is requested and not waited for.
*/
module Lifecycle {
  import opened Prelude
  import opened RunEvents
  import Registry

  /** Where `execute` stands; each value names what it does next. */
  datatype Execute = Announce | EnterPreflight | StartChecks | Check | EnterRunning | Measure | Conclude

  /** Where `finalise` stands. */
  datatype Finalise =
    | EnterFinalizing | ScoreRun | TakeDigest | TakeCount | Persist | Report | FillSlot | TakeFinalSeq | Complete
    | WriteLog | Publish | Done
  {
    function Rank(): nat {
      match this
      case EnterFinalizing => 0 case ScoreRun => 1 case TakeDigest => 2 case TakeCount => 3 case Persist => 4
      case Report => 5 case FillSlot => 6 case TakeFinalSeq => 7 case Complete => 8 case WriteLog => 9
      case Publish => 10 case Done => 11
    }
  }

  datatype Pc = Executing(phase: Execute) | Finalising(stage: Finalise)

  datatype Sampler = Off | Sleeping | Working | Stopped

  /** What the tasks of a run share. An event's sequence number is its index in `record`. */
  datatype Shared = Shared(state: RunState, record: seq<Event>, sampler: Sampler, aborted: bool, cancelled: bool)

  /** The state and the counts a bundle records. */
  datatype Bundle = Bundle(state: RunState, digestCovers: nat, eventCount: nat)

  /** What `finalise` produces: how the run ended, and its artifacts. */
  datatype Result = Result(
    outcome: RunState, bundle: Bundle, slot: Option<Bundle>, bundleOnDisk: bool, finalSeq: nat, log: Option<seq<Event>>)

  datatype System = System(pc: Pc, shared: Shared, result: Result)

  /** What became of writing the bundle: nothing on disk, on disk but not announced, or both. */
  datatype Persisted = Lost | Unannounced | Announced

  datatype Step =
    | Next(passed: bool, persisted: Persisted, logged: bool)
    | Module(event: Event)
    | Sampling(tick: SamplerStep)
    | Cancel

  datatype SamplerStep = Tick | Observe(event: Event) | Trip | Rest | Drop

  const NO_RESULT: Result := Result(Completed, Bundle(Completed, 0, 0), None, false, 0, None)

  const NEW: System := System(Executing(Announce), Shared(Created, [], Off, false, false), NO_RESULT)

  predicate FromModule(e: Event) {
    || e.Lifecycle? || e.Sample? || e.Warning? || e.ScoreProvisional?
    || e.ModuleCompleted? || e.ModuleFailed? || e.ModuleCancelled?
  }

  predicate FromTelemetry(e: Event) {
    e.Telemetry? || e.Warning? || e.Heartbeat?
  }

  /** `last_seq() + 1`, where the counter's predecessor saturates at zero. */
  function NextNumber(record: seq<Event>): nat {
    Max(|record| - 1, 0) + 1
  }

  function Emit(c: Shared, e: Event): Shared {
    c.(record := c.record + [e])
  }

  function Begin(phase: Execute, c: Shared, passed: bool): (Pc, Shared, RunState) {
    match phase
    case Announce => (Executing(EnterPreflight), Emit(c, RunCreated("", "", 0)), Completed)
    case EnterPreflight => (Executing(StartChecks), c.(state := Preflight), Completed)
    case StartChecks => (Executing(Check), Emit(c, PreflightStarted), Completed)
    case Check =>
      var d := Emit(c, PreflightCompleted(passed, "", [], 0));
      if passed then (Executing(EnterRunning), d, Completed) else (Finalising(EnterFinalizing), d, Failed)
    case EnterRunning => (Executing(Measure), c.(state := Running, sampler := Sleeping), Completed)
    case Measure => (Executing(Conclude), c.(aborted := true), Completed)
    case Conclude => (Finalising(EnterFinalizing), c, if c.cancelled then Cancelled else Completed)
  }

  /** The next stage, and what it publishes or emits. */
  function EndShared(stage: Finalise, c: Shared, r: Result): Shared {
    match stage
    case EnterFinalizing => c.(state := Finalizing)
    case ScoreRun => Emit(c, ScoreFinal(Score(None, [], false)))
    case Report => Emit(c, ReportGenerated(""))
    case Complete => Emit(c, RunCompleted(r.outcome, Local, r.finalSeq))
    case Publish => c.(state := r.outcome)
    case _ => c
  }

  function EndStage(stage: Finalise, persisted: Persisted): Finalise {
    match stage
    case EnterFinalizing => ScoreRun
    case ScoreRun => TakeDigest
    case TakeDigest => TakeCount
    case TakeCount => Persist
    case Persist => if persisted.Announced? then Report else FillSlot
    case Report => FillSlot
    case FillSlot => TakeFinalSeq
    case TakeFinalSeq => Complete
    case Complete => WriteLog
    case WriteLog => Publish
    case Publish => Done
    case Done => Done
  }

  /** What the stage leaves in the artifacts; `record` is as it finds it. */
  function EndResult(stage: Finalise, record: seq<Event>, r: Result, persisted: Persisted, logged: bool): Result {
    match stage
    case TakeDigest => r.(bundle := Bundle(r.outcome, |record|, r.bundle.eventCount))
    case TakeCount => r.(bundle := Bundle(r.bundle.state, r.bundle.digestCovers, NextNumber(record)))
    case Persist => r.(bundleOnDisk := !persisted.Lost?)
    case FillSlot => r.(slot := Some(r.bundle))
    case TakeFinalSeq => r.(finalSeq := NextNumber(record))
    case WriteLog => r.(log := if logged then Some(record) else None)
    case _ => r
  }

  /** One step of the executing task. The booleans and `persisted` are what the world answers. */
  function Advance(s: System, passed: bool, persisted: Persisted, logged: bool): System {
    match s.pc
    case Executing(phase) =>
      var (pc, c, outcome) := Begin(phase, s.shared, passed);
      System(pc, c, s.result.(outcome := outcome))
    case Finalising(stage) =>
      System(
        Finalising(EndStage(stage, persisted)),
        EndShared(stage, s.shared, s.result),
        EndResult(stage, s.shared.record, s.result, persisted, logged))
  }

  /** The telemetry task, one await point at a time. It looks for a terminal state only when a tick begins. */
  function Sampled(c: Shared, step: SamplerStep): Shared {
    match step
    case Tick =>
      if !c.sampler.Sleeping? || c.aborted then c
      else c.(sampler := if c.state.IsTerminal() then Stopped else Working)
    case Observe(e) => if c.sampler.Working? && FromTelemetry(e) then Emit(c, e) else c
    case Trip => if c.sampler.Working? then c.(sampler := Stopped, cancelled := true) else c
    case Rest => if c.sampler.Working? then c.(sampler := if c.aborted then Stopped else Sleeping) else c
    case Drop => if c.sampler.Sleeping? && c.aborted then c.(sampler := Stopped) else c
  }

  /** A step that is not enabled leaves the system as it is. */
  function Apply(s: System, step: Step): System {
    match step
    case Next(passed, persisted, logged) => Advance(s, passed, persisted, logged)
    case Module(e) => if s.pc == Executing(Measure) && FromModule(e) then s.(shared := Emit(s.shared, e)) else s
    case Sampling(tick) => s.(shared := Sampled(s.shared, tick))
    case Cancel => s.(shared := s.shared.(cancelled := true))
  }

  function Run(s: System, steps: seq<Step>): System
    decreases steps
  {
    if steps == [] then s else Run(Apply(s, steps[0]), steps[1..])
  }

  lemma {:induction false} RunAppend(s: System, first: seq<Step>, rest: seq<Step>)
    ensures Run(s, first + rest) == Run(Run(s, first), rest)
    decreases first
  {
    if first == [] {
      assert first + rest == rest;
    } else {
      assert (first + rest)[0] == first[0] && (first + rest)[1..] == first[1..] + rest;
      RunAppend(Apply(s, first[0]), first[1..], rest);
    }
  }

  // ----- what every reachable state satisfies --------------------------------------------

  ghost predicate CompletedOnce(record: seq<Event>, outcome: RunState) {
    && (exists i :: 0 <= i < |record| && record[i].RunCompleted? && record[i].state == outcome)
    && (forall i, j :: 0 <= i < j < |record| ==> !(record[i].RunCompleted? && record[j].RunCompleted?))
  }

  ghost predicate NeverCompleted(record: seq<Event>) {
    forall i :: 0 <= i < |record| ==> !record[i].RunCompleted?
  }

  ghost predicate PreflightFailed(record: seq<Event>) {
    exists i :: 0 <= i < |record| && record[i].PreflightCompleted? && !record[i].passed
  }

  ghost predicate ExecutingInv(phase: Execute, c: Shared, r: Result) {
    && r == NO_RESULT
    && NeverCompleted(c.record) && !PreflightFailed(c.record)
    && c.state == (match phase
                   case Announce => Created case EnterPreflight => Created
                   case Measure => Running case Conclude => Running
                   case _ => Preflight)
    && (c.record == [] ==> phase.Announce?)
    && (c.sampler.Off? <==> !phase.Measure? && !phase.Conclude?)
    && (c.aborted <==> phase.Conclude?)
  }

  ghost predicate FinalisingInv(stage: Finalise, c: Shared, r: Result) {
    && r.outcome.IsTerminal()
    && (r.outcome == Failed <==> PreflightFailed(c.record))
    && (r.outcome == Cancelled ==> c.cancelled)
    && c.state == (match stage
                   case EnterFinalizing => if r.outcome == Failed then Preflight else Running
                   case Done => r.outcome
                   case _ => Finalizing)
    && c.record != [] && (c.sampler.Off? || c.aborted)
    && (if stage.Rank() >= 9 then CompletedOnce(c.record, r.outcome) else NeverCompleted(c.record))
  }

  ghost predicate ArtifactInv(stage: Finalise, c: Shared, r: Result) {
    && (stage.Rank() >= 3 ==> r.bundle.state == r.outcome)
    && r.slot == (if stage.Rank() >= 7 then Some(r.bundle) else None)
    && (r.log.Some? ==> stage.Rank() >= 10 && r.log.value <= c.record && CompletedOnce(r.log.value, r.outcome))
  }

  ghost predicate Inv(s: System) {
    match s.pc
    case Executing(phase) => ExecutingInv(phase, s.shared, s.result)
    case Finalising(stage) => FinalisingInv(stage, s.shared, s.result) && ArtifactInv(stage, s.shared, s.result)
  }

  lemma EmitKeepsRecord(record: seq<Event>, e: Event, outcome: RunState)
    requires !e.RunCompleted?
    ensures NeverCompleted(record) ==> NeverCompleted(record + [e])
    ensures CompletedOnce(record, outcome) ==> CompletedOnce(record + [e], outcome)
  {
    var more := record + [e];
    if CompletedOnce(record, outcome) {
      var i :| 0 <= i < |record| && record[i].RunCompleted? && record[i].state == outcome;
      assert more[i] == record[i];
    }
  }

  lemma CompleteOnce(record: seq<Event>, outcome: RunState, verdict: ResultState, finalSeq: nat)
    requires NeverCompleted(record)
    ensures CompletedOnce(record + [RunCompleted(outcome, verdict, finalSeq)], outcome)
  {
    assert (record + [RunCompleted(outcome, verdict, finalSeq)])[|record|].RunCompleted?;
  }

  lemma EmitKeepsPreflight(record: seq<Event>, e: Event)
    ensures PreflightFailed(record + [e]) <==> PreflightFailed(record) || (e.PreflightCompleted? && !e.passed)
  {
    var more := record + [e];
    if PreflightFailed(record) {
      var i :| 0 <= i < |record| && record[i].PreflightCompleted? && !record[i].passed;
      assert more[i] == record[i];
    }
    if e.PreflightCompleted? && !e.passed {
      assert more[|record|] == e;
    }
  }

  lemma EmitKeepsLog(log: Option<seq<Event>>, record: seq<Event>, e: Event)
    ensures log.Some? && log.value <= record ==> log.value <= record + [e]
  {
  }

  lemma BeginKeepsInv(phase: Execute, c: Shared, passed: bool)
    requires ExecutingInv(phase, c, NO_RESULT)
    ensures var (pc, d, outcome) := Begin(phase, c, passed); Inv(System(pc, d, NO_RESULT.(outcome := outcome)))
  {
    var (pc, d, outcome) := Begin(phase, c, passed);
    if d.record != c.record {
      var e := d.record[|c.record|];
      assert d == Emit(c, e);
      EmitKeepsPreflight(c.record, e);
      EmitKeepsRecord(c.record, e, outcome);
    }
  }

  lemma EndKeepsRecord(stage: Finalise, c: Shared, r: Result, persisted: Persisted, logged: bool)
    requires FinalisingInv(stage, c, r)
    ensures FinalisingInv(EndStage(stage, persisted), EndShared(stage, c, r),
                          EndResult(stage, c.record, r, persisted, logged))
  {
    var d := EndShared(stage, c, r);
    if stage.Complete? {
      EmitKeepsPreflight(c.record, RunCompleted(r.outcome, Local, r.finalSeq));
      CompleteOnce(c.record, r.outcome, Local, r.finalSeq);
    } else if d.record != c.record {
      var e := d.record[|c.record|];
      assert d == Emit(c, e);
      EmitKeepsPreflight(c.record, e);
      EmitKeepsRecord(c.record, e, r.outcome);
    }
  }

  lemma EndKeepsArtifacts(stage: Finalise, c: Shared, r: Result, persisted: Persisted, logged: bool)
    requires FinalisingInv(stage, c, r) && ArtifactInv(stage, c, r)
    ensures ArtifactInv(EndStage(stage, persisted), EndShared(stage, c, r),
                        EndResult(stage, c.record, r, persisted, logged))
  {
  }

  lemma EmittedKeepsInv(s: System, e: Event)
    requires Inv(s) && !e.RunCompleted? && !e.PreflightCompleted? && s.shared.record != []
    ensures Inv(s.(shared := Emit(s.shared, e)))
  {
    EmitKeepsPreflight(s.shared.record, e);
    EmitKeepsRecord(s.shared.record, e, s.result.outcome);
    EmitKeepsLog(s.result.log, s.shared.record, e);
  }

  lemma SampledKeepsInv(s: System, tick: SamplerStep)
    requires Inv(s)
    ensures Inv(s.(shared := Sampled(s.shared, tick)))
  {
    if tick.Observe? && s.shared.sampler.Working? && FromTelemetry(tick.event) {
      EmittedKeepsInv(s, tick.event);
    }
  }

  lemma StepKeepsInv(s: System, step: Step)
    requires Inv(s)
    ensures Inv(Apply(s, step))
  {
    match step
    case Next(passed, persisted, logged) =>
      match s.pc {
        case Executing(phase) => BeginKeepsInv(phase, s.shared, passed);
        case Finalising(stage) =>
          EndKeepsRecord(stage, s.shared, s.result, persisted, logged);
          EndKeepsArtifacts(stage, s.shared, s.result, persisted, logged);
      }
    case Module(e) =>
      if s.pc == Executing(Measure) && FromModule(e) {
        EmittedKeepsInv(s, e);
      }
    case Sampling(tick) => SampledKeepsInv(s, tick);
    case Cancel =>
  }

  lemma {:induction false} RunKeepsInv(s: System, steps: seq<Step>)
    requires Inv(s)
    ensures Inv(Run(s, steps))
    decreases steps
  {
    if steps != [] {
      StepKeepsInv(s, steps[0]);
      RunKeepsInv(Apply(s, steps[0]), steps[1..]);
    }
  }

  lemma InvOfNew()
    ensures Inv(NEW)
  {
  }

  /**
   A run turns terminal only once its bundle can be read, its one terminal event
   is in the record, and the log has been attempted; the state says how it ended.
  */
  lemma TerminalMeansReadable(steps: seq<Step>)
    requires Run(NEW, steps).shared.state.IsTerminal()
    ensures var s := Run(NEW, steps); var outcome := s.shared.state;
            && s.result.slot.Some? && s.result.slot.value.state == outcome
            && CompletedOnce(s.shared.record, outcome)
            && (s.result.log.Some? ==>
                  s.result.log.value <= s.shared.record && CompletedOnce(s.result.log.value, outcome))
            && (outcome == Failed <==> PreflightFailed(s.shared.record))
            && (outcome == Cancelled ==> s.shared.cancelled)
  {
    InvOfNew();
    RunKeepsInv(NEW, steps);
  }

  /** States are published in the one order the registry assumes of a task. */
  lemma StatesAdvanceInOrder(steps: seq<Step>, step: Step)
    ensures var c, d := Run(NEW, steps).shared, Apply(Run(NEW, steps), step).shared;
            c.state == d.state || Registry.Follows(c.state, d.state)
  {
    InvOfNew();
    RunKeepsInv(NEW, steps);
  }

  // ----- whether the terminal event is the last ------------------------------------------

  /** No telemetry event can follow: the task never ran, has ended, or sleeps with its abort pending. */
  predicate Quiet(c: Shared) {
    c.sampler.Off? || c.sampler.Stopped? || (c.sampler.Sleeping? && c.aborted)
  }

  /** The run ends with its terminal event, which carries its own number; every count and copy agrees with that. */
  ghost predicate EndsWithCompleted(c: Shared, r: Result) {
    && |c.record| > 0
    && c.record[|c.record| - 1] == RunCompleted(r.outcome, Local, |c.record| - 1)
    && (r.log.Some? ==> r.log.value == c.record)
    && CountsAgree(c.record, r.bundle)
  }

  /** The digest covers the stream up to the final score, and the event count says the same. */
  ghost predicate CountsAgree(record: seq<Event>, b: Bundle) {
    && 0 < b.digestCovers <= |record| && record[b.digestCovers - 1].ScoreFinal?
    && b.eventCount == b.digestCovers
  }

  ghost predicate QuietInv(stage: Finalise, c: Shared, r: Result) {
    && Quiet(c) && (c.sampler.Off? || c.aborted) && |c.record| > 0
    && (stage.TakeDigest? ==> c.record[|c.record| - 1].ScoreFinal?)
    && (stage.TakeCount? ==> |c.record| == r.bundle.digestCovers && c.record[|c.record| - 1].ScoreFinal?)
    && (stage.Rank() >= 4 ==> CountsAgree(c.record, r.bundle))
    && (stage.Complete? ==> r.finalSeq == |c.record|)
    && (stage.Rank() >= 9 ==> c.record[|c.record| - 1] == RunCompleted(r.outcome, Local, |c.record| - 1))
    && (stage.Rank() >= 10 && r.log.Some? ==> r.log.value == c.record)
  }

  lemma EndKeepsQuiet(stage: Finalise, c: Shared, r: Result, persisted: Persisted, logged: bool)
    requires QuietInv(stage, c, r)
    ensures QuietInv(EndStage(stage, persisted), EndShared(stage, c, r),
                     EndResult(stage, c.record, r, persisted, logged))
  {
  }

  lemma QuietStaysQuiet(stage: Finalise, c: Shared, r: Result, tick: SamplerStep)
    requires QuietInv(stage, c, r)
    ensures QuietInv(stage, Sampled(c, tick), r) && QuietInv(stage, c.(cancelled := true), r)
  {
  }

  lemma {:induction false} RunKeepsQuiet(s: System, steps: seq<Step>)
    requires s.pc.Finalising? && QuietInv(s.pc.stage, s.shared, s.result)
    ensures var t := Run(s, steps); t.pc.Finalising? && QuietInv(t.pc.stage, t.shared, t.result)
    decreases steps
  {
    if steps != [] {
      match steps[0] {
        case Next(passed, persisted, logged) => EndKeepsQuiet(s.pc.stage, s.shared, s.result, persisted, logged);
        case Module(_) =>
        case Sampling(tick) => QuietStaysQuiet(s.pc.stage, s.shared, s.result, tick);
        case Cancel => QuietStaysQuiet(s.pc.stage, s.shared, s.result, Tick);
      }
      RunKeepsQuiet(Apply(s, steps[0]), steps[1..]);
    }
  }

  /** The executing task running on alone. */
  function Alone(n: nat, logged: bool): seq<Step> {
    if n == 0 then [] else [Next(true, Announced, logged)] + Alone(n - 1, logged)
  }

  lemma EndMoves(stage: Finalise, c: Shared, r: Result, logged: bool)
    ensures !stage.Done? ==> EndStage(stage, Announced).Rank() == stage.Rank() + 1
    ensures var d := EndShared(stage, c, r); d.sampler == c.sampler && d.aborted == c.aborted
    ensures var q := EndResult(stage, c.record, r, Announced, logged);
            && (q.bundleOnDisk <==> stage.Persist? || r.bundleOnDisk)
            && (stage.WriteLog? ==> q.log.Some? == logged)
            && (!stage.WriteLog? ==> q.log == r.log)
  {
  }

  lemma {:induction false} AloneFinishes(s: System, n: nat, logged: bool)
    requires s.pc.Finalising? && s.pc.stage.Rank() + n == 11
    ensures var t := Run(s, Alone(n, logged));
            && t.pc == Finalising(Done) && t.shared.sampler == s.shared.sampler
            && (s.pc.stage.Rank() <= 4 ==> t.result.bundleOnDisk)
            && (s.result.bundleOnDisk ==> t.result.bundleOnDisk)
            && (s.pc.stage.Rank() <= 9 ==> t.result.log.Some? == logged)
            && (s.pc.stage.Rank() > 9 ==> t.result.log == s.result.log)
    decreases n
  {
    if n > 0 {
      EndMoves(s.pc.stage, s.shared, s.result, logged);
      var rest := Alone(n - 1, logged);
      assert ([Next(true, Announced, logged)] + rest)[1..] == rest;
      AloneFinishes(Advance(s, true, Announced, logged), n - 1, logged);
    }
  }

  /** A tick that was under way when the abort was requested, finishing after everything else. */
  lemma LateSample(s: System) returns (more: seq<Step>)
    requires s.pc == Finalising(EnterFinalizing) && s.shared.sampler.Working?
    ensures var t := Run(s, more);
            t.pc == Finalising(Done) && t.shared.record != [] && !t.shared.record[|t.shared.record| - 1].RunCompleted?
  {
    var alone, late := Alone(11, true), Sampling(Observe(Heartbeat));
    AloneFinishes(s, 11, true);
    more := alone + [late];
    RunAppend(s, alone, [late]);
    RunOne(Run(s, alone), late);
  }

  lemma RunOne(s: System, step: Step)
    ensures Run(s, [step]) == Apply(s, step)
  {
    assert [step][1..] == [];
    assert Run(Apply(s, step), []) == Apply(s, step);
  }

  /**
   Finalisation starts without waiting for the telemetry task. The terminal event
   is last however the run then goes on, exactly when that task is already quiet.
  */
  lemma CompletedIsLastExactlyWhenQuiet(steps: seq<Step>)
    requires Run(NEW, steps).pc == Finalising(EnterFinalizing)
    ensures var s := Run(NEW, steps);
            Quiet(s.shared) <==>
            forall more :: var t := Run(s, more); t.pc == Finalising(Done) ==> EndsWithCompleted(t.shared, t.result)
  {
    var s := Run(NEW, steps);
    InvOfNew();
    RunKeepsInv(NEW, steps);
    if Quiet(s.shared) {
      forall more
        ensures var t := Run(s, more); t.pc == Finalising(Done) ==> EndsWithCompleted(t.shared, t.result)
      {
        RunKeepsQuiet(s, more);
      }
    } else {
      var more := LateSample(s);
      assert !EndsWithCompleted(Run(s, more).shared, Run(s, more).result);
    }
  }

  /** A run whose preflight passed and whose first module is being measured. */
  function Measuring(): Shared {
    var c := Emit(Emit(NEW.shared, RunCreated("", "", 0)).(state := Preflight), PreflightStarted);
    Emit(c, PreflightCompleted(true, "", [], 0)).(state := Running, sampler := Sleeping)
  }

  lemma ReachesMeasuring(n: Step)
    requires n == Next(true, Announced, true)
    ensures Run(NEW, [n, n, n, n, n]) == System(Executing(Measure), Measuring(), NO_RESULT)
  {
    var c := Emit(NEW.shared, RunCreated("", "", 0)).(state := Preflight);
    Prepend(NEW, n, [n, n, n, n]);
    Prepend(Apply(NEW, n), n, [n, n, n]);
    Prepend(System(Executing(StartChecks), c, NO_RESULT), n, [n, n]);
    Prepend(Apply(System(Executing(StartChecks), c, NO_RESULT), n), n, [n]);
    var d := Emit(Emit(c, PreflightStarted), PreflightCompleted(true, "", [], 0));
    RunOne(System(Executing(EnterRunning), d, NO_RESULT), n);
    assert [n, n, n, n, n] == [n] + ([n] + ([n] + ([n] + [n])));
  }

  /** Such a run exists: a tick that starts during the last module and outlives the abort. */
  lemma FinalisationCanStartUnquiet() returns (steps: seq<Step>)
    ensures var s := Run(NEW, steps); s.pc == Finalising(EnterFinalizing) && !Quiet(s.shared)
  {
    var n := Next(true, Announced, true);
    var s := System(Executing(Measure), Measuring(), NO_RESULT);
    var working := System(Executing(Measure), Measuring().(sampler := Working), NO_RESULT);
    ReachesMeasuring(n);
    Prepend(s, Sampling(Tick), [n] + [n]);
    Prepend(working, n, [n]);
    RunOne(Apply(working, n), n);
    steps := [n, n, n, n, n] + ([Sampling(Tick)] + ([n] + [n]));
    RunAppend(NEW, [n, n, n, n, n], [Sampling(Tick)] + ([n] + [n]));
  }

  lemma Prepend(s: System, step: Step, rest: seq<Step>)
    ensures Run(s, [step] + rest) == Run(Apply(s, step), rest)
  {
    assert ([step] + rest)[1..] == rest;
  }

  lemma DoneIsTerminal(s: System)
    requires Inv(s) && s.pc == Finalising(Done)
    ensures s.shared.state.IsTerminal()
  {
  }

  lemma Unlogged(s: System) returns (more: seq<Step>)
    requires Inv(s) && s.pc == Finalising(EnterFinalizing)
    ensures var t := Run(s, more); t.shared.state.IsTerminal() && t.result.bundleOnDisk && t.result.log.None?
  {
    more := Alone(11, false);
    AloneFinishes(s, 11, false);
    RunKeepsInv(s, more);
    DoneIsTerminal(Run(s, more));
  }

  /** A finished run whose bundle is on disk, and so may be evicted, can still have lost its event log. */
  lemma ReplayableRunMayLackItsLog(steps: seq<Step>) returns (more: seq<Step>)
    requires Run(NEW, steps).pc == Finalising(EnterFinalizing)
    ensures var t := Run(Run(NEW, steps), more);
            t.shared.state.IsTerminal() && t.result.bundleOnDisk && t.result.log.None?
  {
    InvOfNew();
    RunKeepsInv(NEW, steps);
    more := Unlogged(Run(NEW, steps));
  }

  /** The step that writes the log was taken, and the write succeeded. */
  ghost predicate LogWritten(s: System, steps: seq<Step>)
    decreases steps
  {
    steps != [] &&
    ((s.pc == Finalising(WriteLog) && steps[0].Next? && steps[0].logged) || LogWritten(Apply(s, steps[0]), steps[1..]))
  }

  ghost predicate PastTheLog(s: System) {
    s.pc == Finalising(Publish) || s.pc == Finalising(Done)
  }

  lemma PastStaysPast(s: System, step: Step)
    requires PastTheLog(s)
    ensures PastTheLog(Apply(s, step)) && Apply(s, step).result.log == s.result.log
  {
  }

  lemma {:induction false} NoLogAfterwards(s: System, steps: seq<Step>)
    requires PastTheLog(s)
    ensures Run(s, steps).result.log == s.result.log && !LogWritten(s, steps)
    decreases steps
  {
    if steps != [] {
      PastStaysPast(s, steps[0]);
      NoLogAfterwards(Apply(s, steps[0]), steps[1..]);
    }
  }

  lemma LogStep(s: System, step: Step)
    requires s.result.log.None?
    ensures var t, writes := Apply(s, step), s.pc == Finalising(WriteLog) && step.Next?;
            && (t.result.log.Some? <==> writes && step.logged)
            && (writes ==> PastTheLog(t))
  {
  }

  lemma {:induction false} LogFollows(s: System, steps: seq<Step>)
    requires s.result.log.None?
    ensures Run(s, steps).result.log.Some? <==> LogWritten(s, steps)
    decreases steps
  {
    if steps != [] {
      var t := Apply(s, steps[0]);
      LogStep(s, steps[0]);
      if PastTheLog(t) && s.pc == Finalising(WriteLog) {
        NoLogAfterwards(t, steps[1..]);
      } else {
        LogFollows(t, steps[1..]);
      }
    }
  }

  /** Over every run: the event log is on disk exactly when its one write succeeded. */
  lemma LogExactlyWhenWritten(steps: seq<Step>)
    ensures Run(NEW, steps).result.log.Some? <==> LogWritten(NEW, steps)
  {
    LogFollows(NEW, steps);
  }
}
