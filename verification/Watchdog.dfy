/**
 The run-scoped watchdog: counters updated once a second, and what they mean as
 statements about the history of samples.
*/
module Watchdog {
  import opened Prelude

  const THERMAL_ABORT_C: real := 100.0
  const THERMAL_ABORT_SAMPLES: nat := 30
  const EXTERNAL_LOAD_WARN_PCT: real := 10.0
  const EXTERNAL_LOAD_WARN_SAMPLES: nat := 20
  const EXTERNAL_LOAD_ABORT_PCT: real := 40.0
  const EXTERNAL_LOAD_ABORT_SAMPLES: nat := 300
  const ENDURANCE_MAX_MINUTES: nat := 24 * 60

  datatype Scope = BareMetal | VirtualMachine | Container

  datatype HostView = HostView(scope: Scope, cgroupCpuLimit: Option<real>, logicalCpus: nat) {
    /** Whether the load figures may count more CPUs than the run was given. */
    predicate ProcStatMayDescribeTheHost() {
      || scope == Container
      || (cgroupCpuLimit.Some? && 0.0 < cgroupCpuLimit.value < logicalCpus as real)
    }
  }

  /** The longest a run may take, in seconds, for the cycle target it was given. */
  function HardRuntimeCeiling(cycleTarget: Option<nat>): nat {
    Min(2 * cycleTarget.Or(3600), ENDURANCE_MAX_MINUTES * 60 + 3600)
  }

  /** One telemetry sample, with the run's age and the suspension flag at the instant it is checked. */
  datatype Sample = Sample(elapsed: nat, tempC: Option<real>, externalPct: real, unavailable: bool, suspended: bool) {
    predicate Hot() {
      tempC.Some? && tempC.value >= THERMAL_ABORT_C
    }
  }

  datatype Reason = RuntimeCeiling | Thermal | ExternalLoad

  datatype Verdict = Abort(reason: Reason) | Degrade

  /** What never changes during a run. */
  datatype Guards = Guards(ceiling: nat, loadEnforced: bool)

  datatype Counters = Counters(hot: nat, contended: nat, heavilyContended: nat, reported: bool)

  /** The new counters, the verdict, and whether the module in flight was marked contended. */
  datatype Checked = Checked(counters: Counters, verdict: Option<Verdict>, noted: bool)

  const ZERO: Counters := Counters(0, 0, 0, false)

  function CheckExternalLoad(c: Counters, g: Guards, x: Sample): Checked {
    if !g.loadEnforced then Checked(c, None, false)
    else if x.suspended then
      Checked(c.(contended := 0, heavilyContended := 0, reported := false), None, false)
    else if x.unavailable then Checked(c, None, false)
    else
      var heavily := if x.externalPct >= EXTERNAL_LOAD_ABORT_PCT then c.heavilyContended + 1 else 0;
      if heavily >= EXTERNAL_LOAD_ABORT_SAMPLES then
        Checked(c.(heavilyContended := heavily), Some(Abort(ExternalLoad)), false)
      else if x.externalPct < EXTERNAL_LOAD_WARN_PCT then
        Checked(c.(heavilyContended := heavily, contended := 0, reported := false), None, false)
      else
        var d := c.(heavilyContended := heavily, contended := c.contended + 1);
        if d.contended < EXTERNAL_LOAD_WARN_SAMPLES then Checked(d, None, false)
        else Checked(d.(reported := true), if c.reported then None else Some(Degrade), true)
  }

  function Check(c: Counters, g: Guards, x: Sample): Checked {
    if x.elapsed > g.ceiling then Checked(c, Some(Abort(RuntimeCeiling)), false)
    else if x.Hot() then
      var d := c.(hot := c.hot + 1);
      if d.hot >= THERMAL_ABORT_SAMPLES then Checked(d, Some(Abort(Thermal)), false)
      else CheckExternalLoad(d, g, x)
    else CheckExternalLoad(c.(hot := 0), g, x)
  }

  /** The watchdog as the telemetry task holds it, together with the handle's contention slot. */
  class Watchdog {
    const guards: Guards
    var consecutiveHot: nat
    var consecutiveContended: nat
    var consecutiveHeavilyContended: nat
    var contentionReported: bool
    var contention: bool

    ghost function Model(): Counters
      reads this
    {
      Counters(consecutiveHot, consecutiveContended, consecutiveHeavilyContended, contentionReported)
    }

    constructor (host: HostView, cycleTarget: Option<nat>)
      ensures Model() == ZERO && !contention
      ensures guards == Guards(HardRuntimeCeiling(cycleTarget), !host.ProcStatMayDescribeTheHost())
    {
      guards := Guards(HardRuntimeCeiling(cycleTarget), !host.ProcStatMayDescribeTheHost());
      consecutiveHot, consecutiveContended, consecutiveHeavilyContended := 0, 0, 0;
      contentionReported, contention := false, false;
    }

    method CheckSample(x: Sample) returns (verdict: Option<Verdict>)
      modifies this
      ensures var checked := Check(old(Model()), guards, x);
              && Model() == checked.counters
              && verdict == checked.verdict
              && contention == (old(contention) || checked.noted)
    {
      if x.elapsed > guards.ceiling {
        return Some(Abort(RuntimeCeiling));
      }
      if x.Hot() {
        consecutiveHot := consecutiveHot + 1;
        if consecutiveHot >= THERMAL_ABORT_SAMPLES {
          return Some(Abort(Thermal));
        }
      } else {
        consecutiveHot := 0;
      }
      verdict := CheckLoad(x);
    }

    method CheckLoad(x: Sample) returns (verdict: Option<Verdict>)
      modifies this
      ensures var checked := CheckExternalLoad(old(Model()), guards, x);
              && Model() == checked.counters
              && verdict == checked.verdict
              && contention == (old(contention) || checked.noted)
    {
      if !guards.loadEnforced {
        return None;
      }
      if x.suspended {
        consecutiveContended, consecutiveHeavilyContended, contentionReported := 0, 0, false;
        return None;
      }
      if x.unavailable {
        return None;
      }
      if x.externalPct >= EXTERNAL_LOAD_ABORT_PCT {
        consecutiveHeavilyContended := consecutiveHeavilyContended + 1;
      } else {
        consecutiveHeavilyContended := 0;
      }
      if consecutiveHeavilyContended >= EXTERNAL_LOAD_ABORT_SAMPLES {
        return Some(Abort(ExternalLoad));
      }
      if x.externalPct >= EXTERNAL_LOAD_WARN_PCT {
        consecutiveContended := consecutiveContended + 1;
      } else {
        consecutiveContended, contentionReported := 0, false;
        return None;
      }
      if consecutiveContended < EXTERNAL_LOAD_WARN_SAMPLES {
        return None;
      }
      contention := true;
      if contentionReported {
        return None;
      }
      contentionReported := true;
      verdict := Some(Degrade);
    }

    method TakeContention() returns (taken: bool)
      modifies this
      ensures taken == old(contention) && !contention && Model() == old(Model())
    {
      taken := contention;
      contention := false;
    }
  }

  // ----- the same decisions as statements about history ---------------------------

  /** The last `k` elements all satisfy `p`. */
  ghost predicate LastAll<T>(s: seq<T>, k: nat, p: T -> bool) {
    |s| >= k && forall i :: |s| - k <= i < |s| ==> p(s[i])
  }

  /** How many trailing elements satisfy `p`. */
  ghost function Streak<T>(s: seq<T>, p: T -> bool): nat {
    if s == [] || !p(s[|s| - 1]) then 0 else 1 + Streak(s[..|s| - 1], p)
  }

  lemma {:induction false} StreakMeansLastAll<T>(s: seq<T>, k: nat, p: T -> bool)
    ensures LastAll(s, k, p) <==> Streak(s, p) >= k
  {
    if k > 0 && s != [] && p(s[|s| - 1]) {
      StreakMeansLastAll(s[..|s| - 1], k - 1, p);
      assert LastAll(s, k, p) <==> LastAll(s[..|s| - 1], k - 1, p) by {
        assert forall i :: 0 <= i < |s| - 1 ==> s[i] == s[..|s| - 1][i];
      }
    } else if k > 0 && s != [] {
      assert !p(s[|s| - 1]);
    }
  }

  /** The load readings taken since the ceiling was last suspended; unreadable samples are not readings. */
  ghost function Readings(h: seq<Sample>): seq<real> {
    if h == [] then []
    else
      var x := h[|h| - 1];
      if x.suspended then []
      else if x.unavailable then Readings(h[..|h| - 1])
      else Readings(h[..|h| - 1]) + [x.externalPct]
  }

  const IsHot: Sample -> bool := (x: Sample) => x.Hot()
  const IsContended: real -> bool := (pct: real) => pct >= EXTERNAL_LOAD_WARN_PCT
  const IsHeavy: real -> bool := (pct: real) => pct >= EXTERNAL_LOAD_ABORT_PCT

  /** What the watchdog should decide on the newest sample of a history. */
  ghost function Expected(h: seq<Sample>, g: Guards): Option<Verdict>
    requires h != []
  {
    var x := h[|h| - 1];
    if x.elapsed > g.ceiling then Some(Abort(RuntimeCeiling))
    else if LastAll(h, THERMAL_ABORT_SAMPLES, IsHot) then Some(Abort(Thermal))
    else if !g.loadEnforced || x.suspended || x.unavailable then None
    else if LastAll(Readings(h), EXTERNAL_LOAD_ABORT_SAMPLES, IsHeavy) then Some(Abort(ExternalLoad))
    else if LastAll(Readings(h), EXTERNAL_LOAD_WARN_SAMPLES, IsContended)
            && !LastAll(Readings(h), EXTERNAL_LOAD_WARN_SAMPLES + 1, IsContended) then Some(Degrade)
    else None
  }

  /** Whether the newest sample marks the module in flight contended. */
  ghost predicate ExpectedNote(h: seq<Sample>, g: Guards)
    requires h != []
  {
    var x := h[|h| - 1];
    && g.loadEnforced && !x.suspended && !x.unavailable
    && LastAll(Readings(h), EXTERNAL_LOAD_WARN_SAMPLES, IsContended)
  }

  ghost function After(h: seq<Sample>, g: Guards): Counters
    decreases |h|, 1
  {
    if h == [] then ZERO else Decided(h, g).counters
  }

  /** What the watchdog really decided on the newest sample. */
  ghost function Decided(h: seq<Sample>, g: Guards): Checked
    requires h != []
    decreases |h|, 0
  {
    Check(After(h[..|h| - 1], g), g, h[|h| - 1])
  }

  /** The telemetry task returns on an abort, so only the newest sample of a history may bring one. */
  ghost predicate AbortFree(h: seq<Sample>, g: Guards) {
    h == [] ||
    (AbortFree(h[..|h| - 1], g) && !(Decided(h, g).verdict.Some? && Decided(h, g).verdict.value.Abort?))
  }

  /** The counters are streaks of the history. */
  ghost predicate CountersAreStreaks(c: Counters, h: seq<Sample>, g: Guards) {
    && c.hot == Streak(h, IsHot) < THERMAL_ABORT_SAMPLES
    && (if g.loadEnforced then
          && c.contended == Streak(Readings(h), IsContended)
          && c.heavilyContended == Streak(Readings(h), IsHeavy) < EXTERNAL_LOAD_ABORT_SAMPLES
          && (c.reported <==> c.contended >= EXTERNAL_LOAD_WARN_SAMPLES)
        else c.contended == c.heavilyContended == 0 && !c.reported)
  }

  /** How a sample that aborts nothing moves the load counters. */
  lemma LoadMoves(c: Counters, g: Guards, x: Sample)
    requires !(CheckExternalLoad(c, g, x).verdict.Some? && CheckExternalLoad(c, g, x).verdict.value.Abort?)
    ensures var d := CheckExternalLoad(c, g, x).counters;
            && d.hot == c.hot
            && (!g.loadEnforced || (!x.suspended && x.unavailable) ==> d == c)
            && (g.loadEnforced && x.suspended ==> d == Counters(c.hot, 0, 0, false))
            && (g.loadEnforced && !x.suspended && !x.unavailable ==>
                  && d.heavilyContended == (if IsHeavy(x.externalPct) then c.heavilyContended + 1 else 0)
                  && d.heavilyContended < EXTERNAL_LOAD_ABORT_SAMPLES
                  && d.contended == (if IsContended(x.externalPct) then c.contended + 1 else 0)
                  && d.reported == (IsContended(x.externalPct) &&
                                    (c.reported || d.contended >= EXTERNAL_LOAD_WARN_SAMPLES)))
  {
  }

  /** And the heat counter. */
  lemma HeatMoves(c: Counters, g: Guards, x: Sample)
    requires !(Check(c, g, x).verdict.Some? && Check(c, g, x).verdict.value.Abort?)
    ensures var hot := if x.Hot() then c.hot + 1 else 0;
            hot < THERMAL_ABORT_SAMPLES && Check(c, g, x) == CheckExternalLoad(c.(hot := hot), g, x)
  {
    assert x.Hot() || c.(hot := 0) == Counters(0, c.contended, c.heavilyContended, c.reported);
  }

  lemma {:induction false} CountersRefineHistory(h: seq<Sample>, g: Guards)
    requires AbortFree(h, g)
    ensures CountersAreStreaks(After(h, g), h, g)
  {
    if h != [] {
      var c, x := After(h[..|h| - 1], g), h[|h| - 1];
      CountersRefineHistory(h[..|h| - 1], g);
      HeatMoves(c, g, x);
      LoadMoves(c.(hot := if x.Hot() then c.hot + 1 else 0), g, x);
      ReadingStep(h, IsContended);
      ReadingStep(h, IsHeavy);
    }
  }

  /** One more sample: a suspension clears the readings, an unreadable one holds them, any other adds to them. */
  lemma ReadingStep(h: seq<Sample>, p: real -> bool)
    requires h != []
    ensures var before, x := Streak(Readings(h[..|h| - 1]), p), h[|h| - 1];
            Streak(Readings(h), p) == if x.suspended then 0
                                      else if x.unavailable then before
                                      else if p(x.externalPct) then before + 1 else 0
  {
    var init, x := h[..|h| - 1], h[|h| - 1];
    assert (Readings(init) + [x.externalPct])[..|Readings(init)|] == Readings(init);
  }

  /** A decision in terms of the streaks the newest sample leaves. */
  ghost function ByStreaks(x: Sample, g: Guards, hot: nat, heavy: nat, contended: nat): Option<Verdict> {
    if x.elapsed > g.ceiling then Some(Abort(RuntimeCeiling))
    else if hot >= THERMAL_ABORT_SAMPLES then Some(Abort(Thermal))
    else if !g.loadEnforced || x.suspended || x.unavailable then None
    else if heavy >= EXTERNAL_LOAD_ABORT_SAMPLES then Some(Abort(ExternalLoad))
    else if contended == EXTERNAL_LOAD_WARN_SAMPLES then Some(Degrade)
    else None
  }

  lemma CheckIsByStreaks(c: Counters, g: Guards, x: Sample)
    requires c.hot < THERMAL_ABORT_SAMPLES
    requires g.loadEnforced ==>
               && c.heavilyContended < EXTERNAL_LOAD_ABORT_SAMPLES
               && (c.reported <==> c.contended >= EXTERNAL_LOAD_WARN_SAMPLES)
    ensures var contended := if IsContended(x.externalPct) then c.contended + 1 else 0;
            && Check(c, g, x).verdict ==
               ByStreaks(x, g, if x.Hot() then c.hot + 1 else 0,
                         if IsHeavy(x.externalPct) then c.heavilyContended + 1 else 0, contended)
            && (Check(c, g, x).verdict == None || Check(c, g, x).verdict == Some(Degrade) ==>
                  (Check(c, g, x).noted <==> g.loadEnforced && !x.suspended && !x.unavailable
                                             && contended >= EXTERNAL_LOAD_WARN_SAMPLES))
  {
  }

  lemma ExpectedIsByStreaks(h: seq<Sample>, g: Guards)
    requires h != []
    ensures Expected(h, g) == ByStreaks(h[|h| - 1], g, Streak(h, IsHot), Streak(Readings(h), IsHeavy),
                                        Streak(Readings(h), IsContended))
    ensures var x := h[|h| - 1];
            ExpectedNote(h, g) <==> g.loadEnforced && !x.suspended && !x.unavailable
                                    && Streak(Readings(h), IsContended) >= EXTERNAL_LOAD_WARN_SAMPLES
  {
    StreakMeansLastAll(h, THERMAL_ABORT_SAMPLES, IsHot);
    StreakMeansLastAll(Readings(h), EXTERNAL_LOAD_ABORT_SAMPLES, IsHeavy);
    StreakMeansLastAll(Readings(h), EXTERNAL_LOAD_WARN_SAMPLES, IsContended);
    StreakMeansLastAll(Readings(h), EXTERNAL_LOAD_WARN_SAMPLES + 1, IsContended);
  }

  /** Every decision, on every history the task can have seen, is the one the history calls for. */
  lemma WatchdogRefinesHistory(h: seq<Sample>, x: Sample, g: Guards)
    requires AbortFree(h, g)
    ensures Decided(h + [x], g).verdict == Expected(h + [x], g)
    ensures Decided(h + [x], g).verdict == None || Decided(h + [x], g).verdict == Some(Degrade) ==>
              (Decided(h + [x], g).noted <==> ExpectedNote(h + [x], g))
  {
    var h' := h + [x];
    assert h'[..|h|] == h;
    CountersRefineHistory(h, g);
    CheckIsByStreaks(After(h, g), g, x);
    ExpectedIsByStreaks(h', g);
    ReadingStep(h', IsContended);
    ReadingStep(h', IsHeavy);
  }

  /** What the watchdog decided when sample `j` was the newest. */
  ghost function DecidedAt(h: seq<Sample>, j: nat, g: Guards): Checked
    requires j < |h|
  {
    Decided(h[..j + 1], g)
  }

  /** The contended stretch that is open at the end of `h` was announced at `at`, and only there. */
  ghost predicate AnnouncedAt(h: seq<Sample>, g: Guards, at: nat) {
    && at < |h|
    && DecidedAt(h, at, g).verdict == Some(Degrade)
    && Streak(Readings(h[..at + 1]), IsContended) == EXTERNAL_LOAD_WARN_SAMPLES
    && (forall j :: at < j < |h| ==> DecidedAt(h, j, g).verdict == None && !h[j].suspended)
  }

  lemma AnnouncementCarries(h: seq<Sample>, g: Guards, at: nat)
    requires h != [] && AnnouncedAt(h[..|h| - 1], g, at)
    requires Decided(h, g).verdict == None && !h[|h| - 1].suspended
    ensures AnnouncedAt(h, g, at)
  {
    var init := h[..|h| - 1];
    assert init[..at + 1] == h[..at + 1] && h[..|h|] == h;
    forall j | at < j < |h|
      ensures DecidedAt(h, j, g).verdict == None && !h[j].suspended
    {
      if j < |init| {
        assert init[..j + 1] == h[..j + 1];
        assert DecidedAt(init, j, g).verdict == None && !init[j].suspended;
      }
    }
  }

  lemma {:induction false} StretchWasAnnounced(h: seq<Sample>, g: Guards) returns (at: nat)
    requires AbortFree(h, g) && g.loadEnforced
    requires Streak(Readings(h), IsContended) >= EXTERNAL_LOAD_WARN_SAMPLES
    ensures AnnouncedAt(h, g, at)
  {
    var init, x := h[..|h| - 1], h[|h| - 1];
    assert init + [x] == h == h[..|h|];
    WatchdogRefinesHistory(init, x, g);
    ReadingStep(h, IsContended);
    StreakMeansLastAll(Readings(h), EXTERNAL_LOAD_WARN_SAMPLES, IsContended);
    StreakMeansLastAll(Readings(h), EXTERNAL_LOAD_WARN_SAMPLES + 1, IsContended);
    if Decided(h, g).verdict == Some(Degrade) {
      at := |h| - 1;
    } else {
      at := StretchWasAnnounced(init, g);
      AnnouncementCarries(h, g, at);
    }
  }

  /** So a run is never stopped for load without the stretch that stopped it having been announced, once, before. */
  lemma DegradePrecedesLoadAbort(h: seq<Sample>, x: Sample, g: Guards) returns (at: nat)
    requires AbortFree(h, g) && Decided(h + [x], g).verdict == Some(Abort(ExternalLoad))
    ensures AnnouncedAt(h, g, at)
  {
    assert (h + [x])[..|h|] == h;
    WatchdogRefinesHistory(h, x, g);
    CountersRefineHistory(h, g);
    ReadingStep(h + [x], IsHeavy);
    StreakMeansLastAll(Readings(h + [x]), EXTERNAL_LOAD_ABORT_SAMPLES, IsHeavy);
    HeavyIsContended(Readings(h));
    at := StretchWasAnnounced(h, g);
  }

  lemma {:induction false} HeavyIsContended(readings: seq<real>)
    ensures Streak(readings, IsHeavy) <= Streak(readings, IsContended)
  {
    if readings != [] && IsHeavy(readings[|readings| - 1]) {
      HeavyIsContended(readings[..|readings| - 1]);
    }
  }
}
