/** The events of a run, with the fields their consumers read. */
module RunEvents {
  import opened Prelude

  datatype RunState = Idle | Created | Preflight | Running | Finalizing | Completed | Failed | Cancelled {
    predicate IsTerminal() {
      Completed? || Failed? || Cancelled?
    }
  }

  datatype TelemetryPoint = TelemetryPoint(
    monoMs: nat, cpuBusy: real, cpuExternal: real, cpuSteal: real, load1: real,
    memUsed: nat, memTotal: nat, freqMhz: Option<real>, tempC: Option<real>)

  datatype Stage = Queued | Preparing | Warmup | Started

  datatype Score = Score(total: Option<real>, categories: seq<(string, real)>, uncalibrated: bool)

  datatype Event =
    | RunCreated(profile: string, scoringModel: string, modules: nat)
    | PreflightStarted
    | PreflightCompleted(passed: bool, risk: string, findings: seq<string>, estimatedSeconds: nat)
    | Lifecycle(stage: Stage, moduleId: string, phase: Option<string>, index: nat, total: nat)
    | Sample(metricKey: string, value: real, unit: string, rep: nat, warmup: bool, progress: real)
    | Telemetry(point: TelemetryPoint)
    | Warning(code: string, message: string)
    | ModuleCompleted(result: string)
    | ModuleFailed(failedId: string, error: string)
    | ModuleCancelled(cancelledId: string)
    | ScoreProvisional(provisional: Score)
    | ScoreFinal(final: Score)
    | ReportGenerated(sha256: string)
    | RunCompleted(state: RunState, verdict: ResultState, finalSeq: nat)
    | RunInvalidated(invalidVerdict: ResultState)
    | Heartbeat
  {
    predicate IsStreamTerminal() {
      RunCompleted? || RunInvalidated?
    }
  }
}

/**
 The browser's render state and the fold that produces it. `Fold` follows the
 reducer case by case; `History` reads each field off the whole event history,
 and `ViewIsHistory` says the two agree.
*/
module RunView {
  import opened Prelude
  import opened RunLog
  import opened RunEvents

  const TELEMETRY_WINDOW: nat := 180
  const LOG_LIMIT: nat := 300

  type Wire = Envelope<Event>

  datatype Severity = Info | Alert | Error

  /** A log line keeps the event its text is formatted from. */
  datatype LogLine = LogLine(seqNo: nat, event: Event, severity: Severity)

  datatype Live = Live(value: real, unit: string, rep: nat)

  /** The fields about the run as a whole. */
  datatype RunPart = RunPart(
    state: RunState,
    profile: Option<string>,
    scoringModel: Option<string>,
    preflightPassed: Option<bool>,
    risk: Option<string>,
    findings: seq<string>,
    estimatedSeconds: Option<nat>,
    score: Option<Score>,
    scoresFinal: bool,
    verdict: Option<ResultState>,
    bundleDigest: Option<string>)

  /** The fields about the module in flight. */
  datatype ModulePart = ModulePart(
    currentModule: Option<string>,
    currentPhase: Option<string>,
    moduleIndex: nat,
    moduleTotal: nat,
    progress: real,
    liveMetrics: map<string, Live>)

  /** The fields that accumulate. */
  datatype FeedPart = FeedPart(
    results: seq<string>,
    telemetry: seq<TelemetryPoint>,
    latest: Option<TelemetryPoint>,
    log: seq<LogLine>)

  datatype View = View(run: RunPart, mod: ModulePart, feed: FeedPart, lastSeq: int)

  /** The state a `reset` action leaves, before any event. */
  const FRESH: View := View(
    RunPart(Created, None, None, None, None, [], None, None, false, None, None),
    ModulePart(None, None, 0, 0, 0.0, map[]),
    FeedPart([], [], None, []),
    -1)

  function Logged(feed: FeedPart, envelope: Wire, severity: Severity): FeedPart {
    var next := feed.log + [LogLine(envelope.seqNo, envelope.event, severity)];
    feed.(log := if |next| > LOG_LIMIT then next[|next| - LOG_LIMIT..] else next)
  }

  function Fold(view: View, envelope: Wire): View {
    if envelope.seqNo <= view.lastSeq then view else
    var base := view.(lastSeq := envelope.seqNo);
    var run, mod, feed := view.run, view.mod, view.feed;
    match envelope.event
    case RunCreated(profile, scoringModel, modules) =>
      base.(run := run.(profile := Some(profile), scoringModel := Some(scoringModel), state := Preflight),
            mod := mod.(moduleTotal := modules), feed := Logged(feed, envelope, Info))
    case PreflightCompleted(passed, risk, findings, seconds) =>
      base.(run := run.(risk := Some(risk), preflightPassed := Some(passed), findings := findings,
                        estimatedSeconds := Some(seconds), state := if passed then Running else Failed),
            feed := Logged(feed, envelope, if passed then Info else Error))
    case Lifecycle(_, moduleId, phase, index, total) =>
      base.(run := run.(state := Running),
            mod := mod.(currentModule := Some(moduleId), currentPhase := phase,
                        moduleIndex := index, moduleTotal := total))
    case Sample(key, value, unit, rep, warmup, progress) =>
      if warmup then base.(mod := mod.(progress := progress))
      else base.(mod := mod.(liveMetrics := mod.liveMetrics[key := Live(value, unit, rep)], progress := progress))
    case Telemetry(point) =>
      var telemetry := feed.telemetry + [point];
      base.(feed := feed.(latest := Some(point),
                          telemetry := if |telemetry| > TELEMETRY_WINDOW
                                       then telemetry[|telemetry| - TELEMETRY_WINDOW..] else telemetry))
    case Warning(_, _) => base.(feed := Logged(feed, envelope, Alert))
    case ModuleCompleted(result) =>
      base.(feed := Logged(feed.(results := feed.results + [result]), envelope, Info))
    case ModuleFailed(_, _) => base.(feed := Logged(feed, envelope, Error))
    case ScoreProvisional(score) => base.(run := run.(score := Some(score), scoresFinal := false))
    case ScoreFinal(score) => base.(run := run.(score := Some(score), scoresFinal := true))
    case ReportGenerated(sha256) =>
      base.(run := run.(bundleDigest := Some(sha256)), feed := Logged(feed, envelope, Info))
    case RunCompleted(state, verdict, _) =>
      base.(run := run.(state := state, verdict := Some(verdict)), mod := mod.(progress := 1.0),
            feed := Logged(feed, envelope, if state == Completed then Info else Alert))
    case RunInvalidated(verdict) => base.(run := run.(state := Failed, verdict := Some(verdict)))
    case PreflightStarted => base
    case ModuleCancelled(_) => base
    case Heartbeat => base
  }

  function FoldBatch(view: View, batch: seq<Wire>): View
    decreases |batch|
  {
    if batch == [] then view else FoldBatch(Fold(view, batch[0]), batch[1..])
  }

  /** The reducer's loop over one dispatched batch. */
  method Reduce(view: View, batch: seq<Wire>) returns (next: View)
    ensures next == FoldBatch(view, batch)
  {
    next := view;
    for i := 0 to |batch|
      invariant FoldBatch(next, batch[i..]) == FoldBatch(view, batch)
    {
      assert batch[i..][0] == batch[i] && batch[i..][1..] == batch[i + 1..];
      next := Fold(next, batch[i]);
    }
  }

  /** However a sequence is cut into batches, the view is the same. */
  lemma {:induction false} BatchingIsInvisible(view: View, a: seq<Wire>, b: seq<Wire>)
    ensures FoldBatch(view, a + b) == FoldBatch(FoldBatch(view, a), b)
    decreases |a|
  {
    if a == [] {
      assert a + b == b;
    } else {
      assert (a + b)[0] == a[0] && (a + b)[1..] == a[1..] + b;
      BatchingIsInvisible(Fold(view, a[0]), a[1..], b);
    }
  }

  ghost predicate Increasing(es: seq<Wire>) {
    forall i, j :: 0 <= i < j < |es| ==> es[i].seqNo < es[j].seqNo
  }

  lemma {:induction false} StaleIsIgnored(view: View, es: seq<Wire>)
    requires forall i :: 0 <= i < |es| ==> es[i].seqNo <= view.lastSeq
    ensures FoldBatch(view, es) == view
    decreases |es|
  {
    if es != [] {
      StaleIsIgnored(view, es[1..]);
    }
  }

  lemma {:induction false} LastSeqIsNewest(view: View, es: seq<Wire>)
    requires Increasing(es)
    ensures FoldBatch(view, es).lastSeq == if es == [] then view.lastSeq else Max(view.lastSeq, es[|es| - 1].seqNo)
    decreases |es|
  {
    if es != [] {
      LastSeqIsNewest(Fold(view, es[0]), es[1..]);
    }
  }

  /** Redelivering any tail of what was already folded changes nothing. */
  lemma ReplayIsIdempotent(view: View, es: seq<Wire>, cut: nat, again: nat)
    requires Increasing(es) && again <= cut <= |es|
    ensures FoldBatch(FoldBatch(view, es[..cut]), es[again..]) == FoldBatch(view, es)
  {
    var a, again', rest := es[..cut], es[again..cut], es[cut..];
    assert es == a + rest && es[again..] == again' + rest;
    BatchingIsInvisible(view, a, rest);
    StaleTail(view, a, again);
    assert a[again..] == again';
    BatchingIsInvisible(FoldBatch(view, a), again', rest);
  }

  lemma TailIsOlder(es: seq<Wire>, again: nat, last: int)
    requires Increasing(es) && again <= |es| && (es != [] ==> es[|es| - 1].seqNo <= last)
    ensures forall i :: 0 <= i < |es[again..]| ==> es[again..][i].seqNo <= last
  {
  }

  lemma StaleTail(view: View, es: seq<Wire>, again: nat)
    requires Increasing(es) && again <= |es|
    ensures FoldBatch(FoldBatch(view, es), es[again..]) == FoldBatch(view, es)
  {
    var after := FoldBatch(view, es);
    LastSeqIsNewest(view, es);
    TailIsOlder(es, again, after.lastSeq);
    StaleIsIgnored(after, es[again..]);
  }

  lemma FoldSnoc(view: View, es: seq<Wire>, w: Wire)
    ensures FoldBatch(view, es + [w]) == Fold(FoldBatch(view, es), w)
  {
    BatchingIsInvisible(view, es, [w]);
    assert FoldBatch(FoldBatch(view, es), [w]) == FoldBatch(Fold(FoldBatch(view, es), w), []);
  }

  // ----- each field read off the history ---------------------------------------

  /** The value given by the last event that gives one. */
  ghost function LastSet<X>(es: seq<Wire>, sets: Event -> Option<X>, otherwise: X): X {
    if es == [] then otherwise
    else match sets(es[|es| - 1].event)
      case Some(x) => x
      case None => LastSet(es[..|es| - 1], sets, otherwise)
  }

  function Unit<X>(o: Option<X>): seq<X> {
    if o.None? then [] else [o.value]
  }

  /** The values of all the events that have one, oldest first. */
  ghost function Collect<X>(es: seq<Wire>, pick: Wire -> Option<X>): seq<X> {
    if es == [] then []
    else Collect(es[..|es| - 1], pick) + Unit(pick(es[|es| - 1]))
  }

  function SetsState(e: Event): Option<RunState> {
    match e
    case RunCreated(_, _, _) => Some(Preflight)
    case PreflightCompleted(passed, _, _, _) => Some(if passed then Running else Failed)
    case Lifecycle(_, _, _, _, _) => Some(Running)
    case RunCompleted(state, _, _) => Some(state)
    case RunInvalidated(_) => Some(Failed)
    case _ => None
  }

  function SetsVerdict(e: Event): Option<Option<ResultState>> {
    match e
    case RunCompleted(_, verdict, _) => Some(Some(verdict))
    case RunInvalidated(verdict) => Some(Some(verdict))
    case _ => None
  }

  function SetsProgress(e: Event): Option<real> {
    match e
    case Sample(_, _, _, _, _, progress) => Some(progress)
    case RunCompleted(_, _, _) => Some(1.0)
    case _ => None
  }

  function SetsModuleTotal(e: Event): Option<nat> {
    match e
    case RunCreated(_, _, modules) => Some(modules)
    case Lifecycle(_, _, _, _, total) => Some(total)
    case _ => None
  }

  function SetsScore(e: Event): Option<(Option<Score>, bool)> {
    match e
    case ScoreProvisional(score) => Some((Some(score), false))
    case ScoreFinal(score) => Some((Some(score), true))
    case _ => None
  }

  function SetsIdentity(e: Event): Option<(Option<string>, Option<string>)> {
    if e.RunCreated? then Some((Some(e.profile), Some(e.scoringModel))) else None
  }

  function SetsPreflight(e: Event): Option<(Option<bool>, Option<string>, seq<string>, Option<nat>)> {
    if e.PreflightCompleted? then Some((Some(e.passed), Some(e.risk), e.findings, Some(e.estimatedSeconds)))
    else None
  }

  function SetsModule(e: Event): Option<(Option<string>, Option<string>, nat)> {
    if e.Lifecycle? then Some((Some(e.moduleId), e.phase, e.index)) else None
  }

  function SetsDigest(e: Event): Option<Option<string>> {
    if e.ReportGenerated? then Some(Some(e.sha256)) else None
  }

  function SetsMetric(key: string): Event -> Option<Option<Live>> {
    (e: Event) =>
      if e.Sample? && !e.warmup && e.metricKey == key then Some(Some(Live(e.value, e.unit, e.rep))) else None
  }

  function LineOf(w: Wire): Option<LogLine> {
    match w.event
    case RunCreated(_, _, _) => Some(LogLine(w.seqNo, w.event, Info))
    case PreflightCompleted(passed, _, _, _) => Some(LogLine(w.seqNo, w.event, if passed then Info else Error))
    case Warning(_, _) => Some(LogLine(w.seqNo, w.event, Alert))
    case ModuleCompleted(_) => Some(LogLine(w.seqNo, w.event, Info))
    case ModuleFailed(_, _) => Some(LogLine(w.seqNo, w.event, Error))
    case ReportGenerated(_) => Some(LogLine(w.seqNo, w.event, Info))
    case RunCompleted(state, _, _) => Some(LogLine(w.seqNo, w.event, if state == Completed then Info else Alert))
    case _ => None
  }

  function PointOf(w: Wire): Option<TelemetryPoint> {
    if w.event.Telemetry? then Some(w.event.point) else None
  }

  function ResultOf(w: Wire): Option<string> {
    if w.event.ModuleCompleted? then Some(w.event.result) else None
  }

  /** The fields about the run hold what the last event to set them said. */
  ghost predicate RunFields(run: RunPart, es: seq<Wire>) {
    && run.state == LastSet(es, SetsState, Created)
    && (run.profile, run.scoringModel) == LastSet(es, SetsIdentity, (None, None))
    && (run.preflightPassed, run.risk, run.findings, run.estimatedSeconds) ==
       LastSet(es, SetsPreflight, (None, None, [], None))
    && (run.score, run.scoresFinal) == LastSet(es, SetsScore, (None, false))
    && run.verdict == LastSet(es, SetsVerdict, None)
    && run.bundleDigest == LastSet(es, SetsDigest, None)
  }

  /** So do the fields about the module in flight, and each metric shows its last measured sample. */
  ghost predicate ModuleFields(mod: ModulePart, es: seq<Wire>) {
    && (mod.currentModule, mod.currentPhase, mod.moduleIndex) == LastSet(es, SetsModule, (None, None, 0))
    && mod.moduleTotal == LastSet(es, SetsModuleTotal, 0)
    && mod.progress == LastSet(es, SetsProgress, 0.0)
    && (forall key :: LastSet(es, SetsMetric(key), None) ==
          if key in mod.liveMetrics then Some(mod.liveMetrics[key]) else None)
  }

  /** The accumulating fields hold every such event, or the newest of them. */
  ghost predicate FeedFields(feed: FeedPart, es: seq<Wire>) {
    && feed.results == Collect(es, ResultOf)
    && feed.log == LastN(Collect(es, LineOf), LOG_LIMIT)
    && feed.telemetry == LastN(Collect(es, PointOf), TELEMETRY_WINDOW)
    && feed.latest == LastElement(Collect(es, PointOf))
  }

  /** What a dashboard that has seen `es` must display. */
  ghost predicate History(view: View, es: seq<Wire>) {
    && RunFields(view.run, es)
    && ModuleFields(view.mod, es)
    && FeedFields(view.feed, es)
    && view.lastSeq == (if es == [] then -1 else es[|es| - 1].seqNo)
  }

  lemma LastSetSnoc<X>(es: seq<Wire>, w: Wire, sets: Event -> Option<X>, otherwise: X)
    ensures LastSet(es + [w], sets, otherwise) == sets(w.event).Or(LastSet(es, sets, otherwise))
  {
    assert (es + [w])[..|es|] == es;
  }

  lemma CollectSnoc<X>(es: seq<Wire>, w: Wire, pick: Wire -> Option<X>)
    ensures Collect(es + [w], pick) == Collect(es, pick) + Unit(pick(w))
  {
    assert (es + [w])[..|es|] == es;
  }

  /** One fold changes each run field by exactly the rule that field's history obeys. */
  lemma RunFold(view: View, w: Wire)
    requires w.seqNo > view.lastSeq
    ensures var run, run', e := view.run, Fold(view, w).run, w.event;
            && run'.state == SetsState(e).Or(run.state)
            && (run'.profile, run'.scoringModel) == SetsIdentity(e).Or((run.profile, run.scoringModel))
            && (run'.preflightPassed, run'.risk, run'.findings, run'.estimatedSeconds) ==
               SetsPreflight(e).Or((run.preflightPassed, run.risk, run.findings, run.estimatedSeconds))
  {
  }

  lemma OutcomeFold(view: View, w: Wire)
    requires w.seqNo > view.lastSeq
    ensures var run, run', e := view.run, Fold(view, w).run, w.event;
            && (run'.score, run'.scoresFinal) == SetsScore(e).Or((run.score, run.scoresFinal))
            && run'.verdict == SetsVerdict(e).Or(run.verdict)
            && run'.bundleDigest == SetsDigest(e).Or(run.bundleDigest)
  {
  }

  lemma ModuleFold(view: View, w: Wire)
    requires w.seqNo > view.lastSeq
    ensures var mod, mod', e := view.mod, Fold(view, w).mod, w.event;
            && (mod'.currentModule, mod'.currentPhase, mod'.moduleIndex) ==
               SetsModule(e).Or((mod.currentModule, mod.currentPhase, mod.moduleIndex))
            && mod'.moduleTotal == SetsModuleTotal(e).Or(mod.moduleTotal)
            && mod'.progress == SetsProgress(e).Or(mod.progress)
            && mod'.liveMetrics == (if e.Sample? && !e.warmup
                                    then mod.liveMetrics[e.metricKey := Live(e.value, e.unit, e.rep)]
                                    else mod.liveMetrics)
  {
  }

  lemma LogFold(view: View, w: Wire)
    requires w.seqNo > view.lastSeq
    ensures var log, log' := view.feed.log, Fold(view, w).feed.log;
            log' == (if LineOf(w).None? then log else LastN(log + Unit(LineOf(w)), LOG_LIMIT))
  {
  }

  lemma FeedFold(view: View, w: Wire)
    requires w.seqNo > view.lastSeq
    ensures var feed, feed' := view.feed, Fold(view, w).feed;
            && feed'.results == feed.results + Unit(ResultOf(w))
            && feed'.telemetry == (if PointOf(w).None? then feed.telemetry
                                   else LastN(feed.telemetry + Unit(PointOf(w)), TELEMETRY_WINDOW))
            && feed'.latest == (if PointOf(w).None? then feed.latest else PointOf(w))
  {
    assert view.feed.results + [] == view.feed.results;
  }

  /** A ring that takes the new entry, if there is one, still holds the newest of its history. */
  lemma RingStep<X>(history: seq<X>, entry: Option<X>, n: nat)
    requires n > 0
    ensures (if entry.None? then LastN(history, n) else LastN(LastN(history, n) + Unit(entry), n)) ==
            LastN(history + Unit(entry), n)
    ensures (if entry.None? then LastElement(history) else entry) == LastElement(history + Unit(entry))
  {
    if entry.Some? {
      LastNPush(history, entry.value, n);
    } else {
      assert history + [] == history;
    }
  }

  lemma RunFieldsStep(view: View, es: seq<Wire>, w: Wire)
    requires RunFields(view.run, es) && w.seqNo > view.lastSeq
    ensures RunFields(Fold(view, w).run, es + [w])
  {
    RunFold(view, w);
    OutcomeFold(view, w);
    LastSetSnoc(es, w, SetsState, Created);
    LastSetSnoc(es, w, SetsIdentity, (None, None));
    LastSetSnoc(es, w, SetsPreflight, (None, None, [], None));
    LastSetSnoc(es, w, SetsScore, (None, false));
    LastSetSnoc(es, w, SetsVerdict, None);
    LastSetSnoc(es, w, SetsDigest, None);
  }

  lemma ModuleFieldsStep(view: View, es: seq<Wire>, w: Wire)
    requires ModuleFields(view.mod, es) && w.seqNo > view.lastSeq
    ensures ModuleFields(Fold(view, w).mod, es + [w])
  {
    ModuleFold(view, w);
    LastSetSnoc(es, w, SetsModule, (None, None, 0));
    LastSetSnoc(es, w, SetsModuleTotal, 0);
    LastSetSnoc(es, w, SetsProgress, 0.0);
    forall key {
      LastSetSnoc(es, w, SetsMetric(key), None);
    }
  }

  lemma FeedFieldsStep(view: View, es: seq<Wire>, w: Wire)
    requires FeedFields(view.feed, es) && w.seqNo > view.lastSeq
    ensures FeedFields(Fold(view, w).feed, es + [w])
  {
    LogFold(view, w);
    FeedFold(view, w);
    CollectSnoc(es, w, ResultOf);
    CollectSnoc(es, w, LineOf);
    CollectSnoc(es, w, PointOf);
    RingStep(Collect(es, LineOf), LineOf(w), LOG_LIMIT);
    RingStep(Collect(es, PointOf), PointOf(w), TELEMETRY_WINDOW);
  }

  lemma HistoryStep(view: View, es: seq<Wire>, w: Wire)
    requires History(view, es) && w.seqNo > view.lastSeq
    ensures History(Fold(view, w), es + [w])
  {
    RunFieldsStep(view, es, w);
    ModuleFieldsStep(view, es, w);
    FeedFieldsStep(view, es, w);
  }

  /** Folding any ordered stream one event at a time yields exactly the view its history calls for. */
  lemma {:induction false} ViewIsHistory(es: seq<Wire>)
    requires Increasing(es)
    ensures History(FoldBatch(FRESH, es), es)
    decreases |es|
  {
    if es != [] {
      var init, w := es[..|es| - 1], es[|es| - 1];
      assert es == init + [w];
      ViewIsHistory(init);
      FoldSnoc(FRESH, init, w);
      HistoryStep(FoldBatch(FRESH, init), init, w);
    }
  }
}
