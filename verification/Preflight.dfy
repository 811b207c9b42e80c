/** What a run will cost, and whether it may start. */
module Preflight {
  import opened Prelude

  const MIN_ENDURANCE_CYCLES: nat := 2
  const MIN_FREE_BYTES: nat := 2 * 1024 * 1024 * 1024
  const BUSY_LOAD_PER_CPU: real := 0.70
  const MEMORY_DISCLOSE_SHARE: real := 0.10
  const MEMORY_BLOCK_SHARE: real := 0.60

  datatype SafetyClass = Observational | ComputeIntensive | WritesTemporaryFiles | UsesNetwork | ProvisionsServices {
    function Rank(): nat {
      match this
      case Observational => 0
      case ComputeIntensive => 1
      case WritesTemporaryFiles => 2
      case UsesNetwork => 3
      case ProvisionsServices => 4
    }
  }

  datatype RiskClass = Safe | ModerateLoad | HeavyLoad | ProductionRisk | Unsupported {
    function Rank(): nat {
      match this
      case Safe => 0
      case ModerateLoad => 1
      case HeavyLoad => 2
      case ProductionRisk => 3
      case Unsupported => 4
    }
  }

  datatype Likelihood = Unlikely | Possible | Likely

  datatype Severity = Info | Warning | Error

  datatype Finding = Finding(check: string, severity: Severity, blocking: bool)

  datatype Module = Module(
    durationSeconds: nat, bytesWritten: nat, networkBytes: nat, peakMemory: nat, writeVolume: nat,
    safety: SafetyClass, dependencies: nat)

  datatype Machine = Machine(
    freeBytes: Option<nat>, logicalCpus: nat, load1: Option<real>, governorIsPerformance: Option<bool>,
    production: Likelihood, availableMemory: nat, totalMemory: nat, swapUsed: nat, container: bool,
    cgroupCpuLimit: Option<real>, complexStack: bool, root: bool)

  /** Costs of one pass over a selection. */
  datatype Costs = Costs(seconds: nat, written: nat, network: nat, peak: nat, volume: nat, safety: SafetyClass)

  const NOTHING: Costs := Costs(0, 0, 0, 0, 0, Observational)

  function MaxSafety(a: SafetyClass, b: SafetyClass): SafetyClass {
    if a.Rank() >= b.Rank() then a else b
  }

  function Plus(c: Costs, m: Module): Costs {
    Costs(c.seconds + m.durationSeconds, c.written + m.bytesWritten, c.network + m.networkBytes,
          Max(c.peak, m.peakMemory), c.volume + m.writeVolume, MaxSafety(c.safety, m.safety))
  }

  type Registry = map<string, Module>

  /** Sums over the known modules of a selection, except that peak memory and safety are maxima. */
  function CostsOf(registry: Registry, ids: seq<string>): Costs {
    if ids == [] then NOTHING
    else
      var before, id := CostsOf(registry, ids[..|ids| - 1]), ids[|ids| - 1];
      if id in registry then Plus(before, registry[id]) else before
  }

  function DependencyFindings(n: nat): seq<Finding> {
    seq(n, _ => Finding("modules.dependencies", Info, false))
  }

  function ModuleFindings(registry: Registry, ids: seq<string>): seq<Finding> {
    if ids == [] then []
    else
      var before, id := ModuleFindings(registry, ids[..|ids| - 1]), ids[|ids| - 1];
      before + if id in registry then DependencyFindings(registry[id].dependencies)
               else [Finding("modules.known", Error, true)]
  }

  /** How many passes the run is expected to make. */
  function Cycles(cycleTargetSeconds: Option<nat>, passSeconds: nat): nat {
    match cycleTargetSeconds
    case None => 1
    case Some(target) =>
      if passSeconds > 0 then Max(target / passSeconds, MIN_ENDURANCE_CYCLES) else MIN_ENDURANCE_CYCLES
  }

  datatype Input = Input(
    registry: Registry, ids: seq<string>, machine: Machine, force: bool, cycleTargetSeconds: Option<nat>)

  datatype Outcome = Outcome(
    risk: RiskClass, passed: bool, findings: seq<Finding>, seconds: nat, written: nat, network: nat,
    peak: nat, volume: nat)

  function When(condition: bool, finding: Finding): seq<Finding> {
    if condition then [finding] else []
  }

  /** The share of available memory a peak would take; everything when nothing is available. */
  function MemoryShare(peak: nat, available: nat): real {
    if available > 0 then peak as real / available as real else 1.0
  }

  function Cpus(machine: Machine): real {
    Max(machine.logicalCpus, 1) as real
  }

  function Duration(input: Input): seq<Finding> {
    When(input.cycleTargetSeconds.Some?, Finding("run.duration", Warning, false))
  }

  /** Unknown free space is unsafe as soon as anything is written. */
  predicate SpaceShort(m: Machine, c: Costs) {
    match m.freeBytes
    case Some(free) => free < Saturate(c.written + MIN_FREE_BYTES)
    case None => c.written > 0
  }

  function Space(m: Machine, c: Costs): seq<Finding> {
    When(SpaceShort(m, c), Finding("storage.free_space", Error, true))
  }

  function MemoryFinding(share: real): Finding {
    Finding("memory.allocation", if share > MEMORY_BLOCK_SHARE then Error else Warning, share > MEMORY_BLOCK_SHARE)
  }

  function Memory(m: Machine, c: Costs): seq<Finding> {
    var share := MemoryShare(c.peak, m.availableMemory);
    When(c.peak > 0 && share > MEMORY_DISCLOSE_SHARE, MemoryFinding(share))
  }

  /** What is disclosed before the machine is looked at. */
  function Disclosures(input: Input, c: Costs): seq<Finding> {
    var cycles := Cycles(input.cycleTargetSeconds, c.seconds);
    Duration(input) +
    Space(input.machine, c) +
    When(Saturate(c.volume * cycles) > 0, Finding("storage.wear", Warning, false)) +
    When(Saturate(c.network * cycles) > 0, Finding("network.egress", Warning, false))
  }

  /** Everything that follows from the costs. */
  function CostFindings(input: Input, c: Costs): seq<Finding> {
    Disclosures(input, c) + Memory(input.machine, c)
  }

  predicate Busy(m: Machine) {
    m.load1.Some? && m.load1.value / Cpus(m) > BUSY_LOAD_PER_CPU
  }

  predicate Capped(m: Machine) {
    m.cgroupCpuLimit.Some? && m.cgroupCpuLimit.value < Cpus(m)
  }

  function UseFindings(m: Machine): seq<Finding> {
    When(Busy(m), Finding("system.load", Warning, false)) +
    When(m.governorIsPerformance == Some(false), Finding("cpu.governor", Warning, false)) +
    When(m.production.Likely?, Finding("system.production", Warning, false))
  }

  function SetupFindings(m: Machine): seq<Finding> {
    When(m.swapUsed > m.totalMemory / 10, Finding("memory.swap", Warning, false)) +
    When(m.container, Finding("environment.scope", Warning, false)) +
    When(Capped(m), Finding("environment.cgroup_cpu", Warning, false)) +
    When(m.complexStack, Finding("storage.stack", Info, false)) +
    When(m.root, Finding("process.privileges", Info, false))
  }

  /** Everything that follows from the machine alone. */
  function MachineFindings(m: Machine): seq<Finding> {
    UseFindings(m) + SetupFindings(m)
  }

  function Classify(safety: SafetyClass, m: Machine): RiskClass {
    if m.production.Likely? && safety.Rank() > Observational.Rank() then ProductionRisk
    else if m.load1.Some? && m.load1.value / Cpus(m) > 2.0 then ProductionRisk
    else if safety.Observational? then Safe
    else HeavyLoad
  }

  predicate Blocks(findings: seq<Finding>) {
    exists f :: f in findings && f.blocking
  }

  predicate Warns(findings: seq<Finding>) {
    exists f :: f in findings && f.severity == Warning
  }

  function Assess(input: Input): Outcome {
    var c := CostsOf(input.registry, input.ids);
    var cycles := Cycles(input.cycleTargetSeconds, c.seconds);
    var findings := When(input.ids == [], Finding("modules.selected", Error, true)) +
                    ModuleFindings(input.registry, input.ids) +
                    CostFindings(input, c) +
                    MachineFindings(input.machine);
    var risk := Classify(c.safety, input.machine);
    Outcome(risk, Passes(findings, risk, input.force), findings, Saturate(c.seconds * cycles), c.written,
            Saturate(c.network * cycles), c.peak, Saturate(c.volume * cycles))
  }

  /** Forcing a run overrides warnings and never a blocking finding. */
  function Passes(findings: seq<Finding>, risk: RiskClass, force: bool): bool {
    !Blocks(findings) && (force || !Warns(findings) || risk.Rank() < ProductionRisk.Rank())
  }

  /** The accumulation loop over the selected modules. */
  method Accumulate(registry: Registry, ids: seq<string>) returns (c: Costs, findings: seq<Finding>)
    ensures c == CostsOf(registry, ids)
    ensures findings == ModuleFindings(registry, ids)
  {
    findings := [];
    var seconds: nat, written: nat, network: nat, peak: nat, volume: nat, safety := 0, 0, 0, 0, 0, Observational;
    for i := 0 to |ids|
      invariant Costs(seconds, written, network, peak, volume, safety) == CostsOf(registry, ids[..i])
      invariant findings == ModuleFindings(registry, ids[..i])
    {
      var id := ids[i];
      assert ids[..i + 1][..i] == ids[..i];
      if id !in registry {
        findings := findings + [Finding("modules.known", Error, true)];
      } else {
        var m := registry[id];
        seconds := seconds + m.durationSeconds;
        written := written + m.bytesWritten;
        network := network + m.networkBytes;
        peak := Max(peak, m.peakMemory);
        volume := volume + m.writeVolume;
        safety := MaxSafety(safety, m.safety);
        findings := findings + DependencyFindings(m.dependencies);
      }
    }
    assert ids[..|ids|] == ids;
    c := Costs(seconds, written, network, peak, volume, safety);
  }

  method Push(findings: seq<Finding>, condition: bool, finding: Finding) returns (more: seq<Finding>)
    ensures more == findings + When(condition, finding)
  {
    more := findings;
    if condition {
      more := more + [finding];
    }
  }

  lemma Chain<T>(x: seq<T>, a: seq<T>, b: seq<T>, c: seq<T>, d: seq<T>, e: seq<T>)
    ensures x + a + b + c == x + (a + b + c)
    ensures x + a + b + c + d == x + (a + b + c + d)
    ensures x + a + b + c + d + e == x + (a + b + c + d + e)
  {
  }

  /** The checks between the module loop and the machine. */
  method Disclose(findings: seq<Finding>, input: Input, c: Costs, volume: nat, network: nat)
    returns (more: seq<Finding>)
    requires volume == Saturate(c.volume * Cycles(input.cycleTargetSeconds, c.seconds))
    requires network == Saturate(c.network * Cycles(input.cycleTargetSeconds, c.seconds))
    ensures more == findings + Disclosures(input, c)
  {
    more := Push(findings, input.cycleTargetSeconds.Some?, Finding("run.duration", Warning, false));
    more := Push(more, SpaceShort(input.machine, c), Finding("storage.free_space", Error, true));
    more := Push(more, volume > 0, Finding("storage.wear", Warning, false));
    more := Push(more, network > 0, Finding("network.egress", Warning, false));
    Chain(findings, Duration(input), Space(input.machine, c), When(volume > 0, Finding("storage.wear", Warning, false)),
          When(network > 0, Finding("network.egress", Warning, false)), []);
  }

  method CheckUse(findings: seq<Finding>, m: Machine) returns (more: seq<Finding>)
    ensures more == findings + UseFindings(m)
  {
    more := Push(findings, Busy(m), Finding("system.load", Warning, false));
    more := Push(more, m.governorIsPerformance == Some(false), Finding("cpu.governor", Warning, false));
    more := Push(more, m.production.Likely?, Finding("system.production", Warning, false));
    Chain(findings, When(Busy(m), Finding("system.load", Warning, false)),
          When(m.governorIsPerformance == Some(false), Finding("cpu.governor", Warning, false)),
          When(m.production.Likely?, Finding("system.production", Warning, false)), [], []);
  }

  method CheckSetup(findings: seq<Finding>, m: Machine) returns (more: seq<Finding>)
    ensures more == findings + SetupFindings(m)
  {
    more := Push(findings, m.swapUsed > m.totalMemory / 10, Finding("memory.swap", Warning, false));
    more := Push(more, m.container, Finding("environment.scope", Warning, false));
    more := Push(more, Capped(m), Finding("environment.cgroup_cpu", Warning, false));
    more := Push(more, m.complexStack, Finding("storage.stack", Info, false));
    more := Push(more, m.root, Finding("process.privileges", Info, false));
    Chain(findings, When(m.swapUsed > m.totalMemory / 10, Finding("memory.swap", Warning, false)),
          When(m.container, Finding("environment.scope", Warning, false)),
          When(Capped(m), Finding("environment.cgroup_cpu", Warning, false)),
          When(m.complexStack, Finding("storage.stack", Info, false)),
          When(m.root, Finding("process.privileges", Info, false)));
  }

  /** The verdict depends on which findings there are, not on their order. */
  lemma OrderIsIrrelevant(a: seq<Finding>, b: seq<Finding>)
    requires multiset(a) == multiset(b)
    ensures Blocks(a) <==> Blocks(b)
    ensures Warns(a) <==> Warns(b)
  {
    assert forall f :: f in a <==> f in multiset(a);
    assert forall f :: f in b <==> f in multiset(b);
  }

  lemma Regrouped(a: seq<Finding>, b: seq<Finding>, c: seq<Finding>, d: seq<Finding>, e: seq<Finding>)
    ensures multiset(a + b + c + d + e) == multiset(a + (b + d) + (c + e))
  {
  }

  /** The findings in the order the program makes them: the memory check comes between the machine's. */
  ghost function InOrder(input: Input, known: seq<Finding>, c: Costs): seq<Finding> {
    When(input.ids == [], Finding("modules.selected", Error, true)) + known + Disclosures(input, c) +
    UseFindings(input.machine) + Memory(input.machine, c) + SetupFindings(input.machine)
  }

  lemma OrderOfAssess(input: Input)
    ensures var known, c := ModuleFindings(input.registry, input.ids), CostsOf(input.registry, input.ids);
            && multiset(InOrder(input, known, c)) == multiset(Assess(input).findings)
            && (forall risk, force :: Passes(InOrder(input, known, c), risk, force) ==
                                      Passes(Assess(input).findings, risk, force))
  {
    var known, c := ModuleFindings(input.registry, input.ids), CostsOf(input.registry, input.ids);
    Regrouped(When(input.ids == [], Finding("modules.selected", Error, true)) + known, Disclosures(input, c),
              UseFindings(input.machine), Memory(input.machine, c), SetupFindings(input.machine));
    OrderIsIrrelevant(InOrder(input, known, c), Assess(input).findings);
  }

  /** Every check after the module loop. */
  method CheckAll(input: Input, first: seq<Finding>, c: Costs, volume: nat, network: nat)
    returns (findings: seq<Finding>)
    requires volume == Saturate(c.volume * Cycles(input.cycleTargetSeconds, c.seconds))
    requires network == Saturate(c.network * Cycles(input.cycleTargetSeconds, c.seconds))
    ensures findings == first + Disclosures(input, c) + UseFindings(input.machine) + Memory(input.machine, c) +
                        SetupFindings(input.machine)
  {
    findings := Disclose(first, input, c, volume, network);
    findings := CheckUse(findings, input.machine);
    var share := MemoryShare(c.peak, input.machine.availableMemory);
    findings := Push(findings, c.peak > 0 && share > MEMORY_DISCLOSE_SHARE, MemoryFinding(share));
    findings := CheckSetup(findings, input.machine);
  }

  method CheckModules(input: Input) returns (c: Costs, findings: seq<Finding>)
    ensures c == CostsOf(input.registry, input.ids)
    ensures findings == When(input.ids == [], Finding("modules.selected", Error, true)) +
                        ModuleFindings(input.registry, input.ids)
  {
    findings := [];
    if input.ids == [] {
      findings := [Finding("modules.selected", Error, true)];
    }
    var known;
    c, known := Accumulate(input.registry, input.ids);
    findings := findings + known;
  }

  /** The whole check, made in the program's order; the result is the assessment all the same. */
  method Run(input: Input) returns (outcome: Outcome)
    ensures multiset(outcome.findings) == multiset(Assess(input).findings)
    ensures outcome == Assess(input).(findings := outcome.findings)
  {
    var c, found := CheckModules(input);
    var cycles := Cycles(input.cycleTargetSeconds, c.seconds);
    var seconds := Saturate(c.seconds * cycles);
    var volume, network := Saturate(c.volume * cycles), Saturate(c.network * cycles);
    var findings := CheckAll(input, found, c, volume, network);
    OrderOfAssess(input);
    var risk := Classify(c.safety, input.machine);
    outcome := Outcome(risk, Passes(findings, risk, input.force), findings, seconds, c.written, network,
                       c.peak, volume);
  }

  // ----- monotonicity ---------------------------------------------------------------

  ghost predicate NoCheaper(a: Costs, b: Costs) {
    && a.seconds <= b.seconds && a.written <= b.written && a.network <= b.network
    && a.peak <= b.peak && a.volume <= b.volume && a.safety.Rank() <= b.safety.Rank()
  }

  lemma {:induction false} AppendingCosts(registry: Registry, ids: seq<string>, more: seq<string>)
    ensures NoCheaper(CostsOf(registry, ids), CostsOf(registry, ids + more))
    ensures forall f :: f in ModuleFindings(registry, ids) ==> f in ModuleFindings(registry, ids + more)
    decreases |more|
  {
    if more == [] {
      assert ids + more == ids;
    } else {
      assert (ids + more)[..|ids + more| - 1] == ids + more[..|more| - 1];
      AppendingCosts(registry, ids, more[..|more| - 1]);
    }
  }

  lemma Positive(a: nat, cycles: nat)
    requires cycles > 0
    ensures Saturate(a * cycles) > 0 <==> a > 0
  {
    if a > 0 {
      assert a * cycles >= 1 by {
        assert a * cycles == (a - 1) * cycles + cycles;
        assert (a - 1) * cycles >= 0;
      }
    }
  }

  lemma ShareGrows(a: nat, b: nat, available: nat)
    requires a <= b
    ensures MemoryShare(a, available) <= MemoryShare(b, available)
  {
    if available > 0 {
      var x, y, z := a as real, b as real, available as real;
      assert y / z - x / z == (y - x) / z;
    }
  }

  /** Refused for what it costs. */
  predicate CostBlocks(m: Machine, c: Costs) {
    SpaceShort(m, c) || (c.peak > 0 && MemoryShare(c.peak, m.availableMemory) > MEMORY_BLOCK_SHARE)
  }

  /** Worth telling the operator about. */
  predicate CostWarns(input: Input, c: Costs) {
    || input.cycleTargetSeconds.Some? || c.volume > 0 || c.network > 0
    || (c.peak > 0 && MemoryShare(c.peak, input.machine.availableMemory) > MEMORY_DISCLOSE_SHARE)
  }

  lemma WhenMeans(condition: bool, f: Finding)
    ensures Blocks(When(condition, f)) <==> condition && f.blocking
    ensures Warns(When(condition, f)) <==> condition && f.severity == Warning
  {
    if condition {
      assert f in When(condition, f);
    }
  }

  lemma Combine5(a: seq<Finding>, b: seq<Finding>, c: seq<Finding>, d: seq<Finding>, e: seq<Finding>)
    ensures Blocks(a + b + c + d + e) <==> Blocks(a) || Blocks(b) || Blocks(c) || Blocks(d) || Blocks(e)
    ensures Warns(a + b + c + d + e) <==> Warns(a) || Warns(b) || Warns(c) || Warns(d) || Warns(e)
  {
    BlocksSplits(a, b);
    BlocksSplits(a + b, c);
    BlocksSplits(a + b + c, d);
    BlocksSplits(a + b + c + d, e);
  }

  /** The cost findings say exactly this; both conditions can only become true as costs grow. */
  lemma CostFindingsMean(input: Input, c: Costs)
    ensures Blocks(CostFindings(input, c)) <==> CostBlocks(input.machine, c)
    ensures Warns(CostFindings(input, c)) || CostBlocks(input.machine, c) <==>
            CostWarns(input, c) || CostBlocks(input.machine, c)
  {
    var cycles := Cycles(input.cycleTargetSeconds, c.seconds);
    Positive(c.volume, cycles);
    Positive(c.network, cycles);
    var duration := Duration(input);
    var space := Space(input.machine, c);
    var wear := When(Saturate(c.volume * cycles) > 0, Finding("storage.wear", Warning, false));
    var egress := When(Saturate(c.network * cycles) > 0, Finding("network.egress", Warning, false));
    var memory := Memory(input.machine, c);
    Combine5(duration, space, wear, egress, memory);
    WhenMeans(input.cycleTargetSeconds.Some?, Finding("run.duration", Warning, false));
    WhenMeans(SpaceShort(input.machine, c), Finding("storage.free_space", Error, true));
    WhenMeans(Saturate(c.volume * cycles) > 0, Finding("storage.wear", Warning, false));
    WhenMeans(Saturate(c.network * cycles) > 0, Finding("network.egress", Warning, false));
    var share := MemoryShare(c.peak, input.machine.availableMemory);
    WhenMeans(c.peak > 0 && share > MEMORY_DISCLOSE_SHARE, MemoryFinding(share));
  }

  lemma BlocksSplits(a: seq<Finding>, b: seq<Finding>)
    ensures Blocks(a + b) <==> Blocks(a) || Blocks(b)
    ensures Warns(a + b) <==> Warns(a) || Warns(b)
  {
    if Blocks(a) {
      var f :| f in a && f.blocking;
      assert f in a + b;
    }
    if Blocks(b) {
      var f :| f in b && f.blocking;
      assert f in a + b;
    }
    if Warns(a) {
      var f :| f in a && f.severity == Warning;
      assert f in a + b;
    }
    if Warns(b) {
      var f :| f in b && f.severity == Warning;
      assert f in a + b;
    }
  }

  lemma CostFindingsGrow(input: Input, input': Input, a: Costs, b: Costs)
    requires NoCheaper(a, b)
    requires input'.machine == input.machine && input'.cycleTargetSeconds == input.cycleTargetSeconds
    ensures Blocks(CostFindings(input, a)) ==> Blocks(CostFindings(input', b))
    ensures Warns(CostFindings(input, a)) ==> Warns(CostFindings(input', b)) || Blocks(CostFindings(input', b))
  {
    CostFindingsMean(input, a);
    CostFindingsMean(input', b);
    ShareGrows(a.peak, b.peak, input.machine.availableMemory);
  }

  lemma FindingsGrow(input: Input, larger: Input, a: Costs, b: Costs)
    requires input.ids != [] && larger.ids != []
    requires larger.machine == input.machine && larger.cycleTargetSeconds == input.cycleTargetSeconds
    requires a == CostsOf(input.registry, input.ids) && b == CostsOf(larger.registry, larger.ids)
    requires NoCheaper(a, b)
    requires forall f :: f in ModuleFindings(input.registry, input.ids) ==>
              f in ModuleFindings(larger.registry, larger.ids)
    ensures Blocks(Assess(input).findings) ==> Blocks(Assess(larger).findings)
    ensures Warns(Assess(input).findings) ==> Warns(Assess(larger).findings) || Blocks(Assess(larger).findings)
  {
    CostFindingsGrow(input, larger, a, b);
    FindingsAre(input, ModuleFindings(input.registry, input.ids), CostFindings(input, a),
                MachineFindings(input.machine));
    FindingsAre(larger, ModuleFindings(larger.registry, larger.ids), CostFindings(larger, b),
                MachineFindings(larger.machine));
    QuieterIsSubset(ModuleFindings(input.registry, input.ids), ModuleFindings(larger.registry, larger.ids));
  }

  lemma VerdictIs(input: Input)
    ensures Assess(input).passed == Passes(Assess(input).findings, Assess(input).risk, input.force)
    ensures Assess(input).risk == Classify(CostsOf(input.registry, input.ids).safety, input.machine)
  {
  }

  lemma RiskNeverFalls(a: SafetyClass, b: SafetyClass, m: Machine)
    requires a.Rank() <= b.Rank()
    ensures Classify(a, m).Rank() <= Classify(b, m).Rank()
  {
  }

  /**
   Making a selection larger never makes preflight quieter: the risk class does
   not fall, and a run that was refused stays refused. The empty selection is
   excepted because it is refused for being empty.
  */
  lemma PreflightIsAntitone(input: Input, more: seq<string>, larger: Input)
    requires input.ids != [] && larger == input.(ids := input.ids + more)
    ensures Assess(input).risk.Rank() <= Assess(larger).risk.Rank()
    ensures !Assess(input).passed ==> !Assess(larger).passed
  {
    var a, b := CostsOf(input.registry, input.ids), CostsOf(larger.registry, larger.ids);
    AppendingCosts(input.registry, input.ids, more);
    VerdictGrows(input, larger, a, b);
  }

  lemma VerdictGrows(input: Input, larger: Input, a: Costs, b: Costs)
    requires input.ids != [] && larger.ids != [] && larger.force == input.force
    requires larger.machine == input.machine && larger.cycleTargetSeconds == input.cycleTargetSeconds
    requires a == CostsOf(input.registry, input.ids) && b == CostsOf(larger.registry, larger.ids)
    requires NoCheaper(a, b)
    requires forall f :: f in ModuleFindings(input.registry, input.ids) ==>
              f in ModuleFindings(larger.registry, larger.ids)
    ensures Assess(input).risk.Rank() <= Assess(larger).risk.Rank()
    ensures !Assess(input).passed ==> !Assess(larger).passed
  {
    var x, y := Assess(input), Assess(larger);
    RiskNeverFalls(a.safety, b.safety, input.machine);
    FindingsGrow(input, larger, a, b);
    VerdictIs(input);
    VerdictIs(larger);
    RefusalGrows(x.findings, y.findings, x.risk, y.risk, input.force);
  }

  lemma QuieterIsSubset(a: seq<Finding>, b: seq<Finding>)
    requires forall f :: f in a ==> f in b
    ensures Blocks(a) ==> Blocks(b)
    ensures Warns(a) ==> Warns(b)
  {
    if Blocks(a) {
      var f :| f in a && f.blocking;
      assert f in b;
    }
    if Warns(a) {
      var f :| f in a && f.severity == Warning;
      assert f in b;
    }
  }

  lemma RefusalGrows(a: seq<Finding>, b: seq<Finding>, risk: RiskClass, risk': RiskClass, force: bool)
    requires Blocks(a) ==> Blocks(b)
    requires Warns(a) ==> Warns(b) || Blocks(b)
    requires risk.Rank() <= risk'.Rank()
    ensures !Passes(a, risk, force) ==> !Passes(b, risk', force)
  {
  }

  lemma Combine(a: seq<Finding>, b: seq<Finding>, c: seq<Finding>)
    ensures Blocks([] + a + b + c) <==> Blocks(a) || Blocks(b) || Blocks(c)
    ensures Warns([] + a + b + c) <==> Warns(a) || Warns(b) || Warns(c)
  {
    assert [] + a == a;
    BlocksSplits(a, b);
    BlocksSplits(a + b, c);
  }

  lemma FindingsAre(input: Input, mf: seq<Finding>, cf: seq<Finding>, nf: seq<Finding>)
    requires input.ids != []
    requires mf == ModuleFindings(input.registry, input.ids)
    requires cf == CostFindings(input, CostsOf(input.registry, input.ids))
    requires nf == MachineFindings(input.machine)
    ensures Assess(input).findings == [] + mf + cf + nf
    ensures Blocks(Assess(input).findings) <==> Blocks(mf) || Blocks(cf) || Blocks(nf)
    ensures Warns(Assess(input).findings) <==> Warns(mf) || Warns(cf) || Warns(nf)
  {
    Combine(mf, cf, nf);
  }

  lemma CostsOfPair(registry: Registry, a: string, b: string)
    requires a in registry && b in registry
    ensures CostsOf(registry, [a]) == Plus(NOTHING, registry[a])
    ensures CostsOf(registry, [a] + [b]) == Plus(Plus(NOTHING, registry[a]), registry[b])
  {
    assert [a][..0] == [] && ([a] + [b])[..1] == [a];
    assert CostsOf(registry, []) == NOTHING;
  }

  /** The disclosed write volume is the exception: a longer pass means fewer cycles, and can mean fewer bytes. */
  lemma VolumeMayFall() returns (input: Input, more: seq<string>)
    ensures input.ids != [] && more != []
    ensures Assess(input.(ids := input.ids + more)).volume < Assess(input).volume
  {
    var writer := Module(1, 0, 0, 0, 10, WritesTemporaryFiles, 0);
    var slow := Module(99, 0, 0, 0, 0, ComputeIntensive, 0);
    var machine := Machine(None, 1, None, None, Unlikely, 0, 0, 0, false, None, false, false);
    input, more := Input(map["w" := writer, "s" := slow], ["w"], machine, false, Some(100)), ["s"];
    CostsOfPair(input.registry, "w", "s");
    TotalsAre(input, Costs(1, 0, 0, 0, 10, WritesTemporaryFiles));
    TotalsAre(input.(ids := input.ids + more), Costs(100, 0, 0, 0, 10, WritesTemporaryFiles));
  }

  /** With the same cycle count, or none, every disclosed total grows with the selection. */
  lemma TotalsGrowAtEqualCycles(input: Input, more: seq<string>)
    requires Cycles(input.cycleTargetSeconds, CostsOf(input.registry, input.ids).seconds) ==
             Cycles(input.cycleTargetSeconds, CostsOf(input.registry, input.ids + more).seconds)
    ensures var larger := input.(ids := input.ids + more);
            && Assess(input).volume <= Assess(larger).volume
            && Assess(input).network <= Assess(larger).network
            && Assess(input).seconds <= Assess(larger).seconds
            && Assess(input).peak <= Assess(larger).peak
            && Assess(input).written <= Assess(larger).written
  {
    AppendingCosts(input.registry, input.ids, more);
    var a, b := CostsOf(input.registry, input.ids), CostsOf(input.registry, input.ids + more);
    var n := Cycles(input.cycleTargetSeconds, a.seconds);
    Scales(a.volume, b.volume, n);
    Scales(a.network, b.network, n);
    Scales(a.seconds, b.seconds, n);
  }

  lemma Scales(a: nat, b: nat, n: nat)
    requires a <= b
    ensures Saturate(a * n) <= Saturate(b * n)
  {
    Multiply(a, b, n);
  }

  /**
   The added modules cost less per pass than the lost cycles save, and the new
   total is not already at the counter's ceiling.
  */
  predicate SavesMore(a: nat, b: nat, cycles: nat, cycles': nat) {
    (b - a) * cycles' < a * (cycles - cycles') && b * cycles' < U64_MAX
  }

  lemma FallsWhenItSaves(a: nat, b: nat, cycles: nat, cycles': nat)
    ensures Saturate(b * cycles') < Saturate(a * cycles) <==> SavesMore(a, b, cycles, cycles')
  {
    assert (b - a) * cycles' == b * cycles' - a * cycles';
    assert a * (cycles - cycles') == a * cycles - a * cycles';
  }

  /** Where the disclosed totals come from. */
  lemma TotalsAre(input: Input, c: Costs)
    requires c == CostsOf(input.registry, input.ids)
    ensures var n, r := Cycles(input.cycleTargetSeconds, c.seconds), Assess(input);
            && r.volume == Saturate(c.volume * n) && r.network == Saturate(c.network * n)
            && r.seconds == Saturate(c.seconds * n) && r.peak == c.peak && r.written == c.written
  {
  }

  /**
   Exactly when a larger selection discloses less. Peak memory and space never
   fall; volume, traffic and time each fall exactly when the cycles lost save more
   than the added modules cost.
  */
  lemma TotalsFallExactly(input: Input, more: seq<string>)
    ensures var larger := input.(ids := input.ids + more);
            var a, b := CostsOf(input.registry, input.ids), CostsOf(input.registry, input.ids + more);
            var n, n' := Cycles(input.cycleTargetSeconds, a.seconds), Cycles(input.cycleTargetSeconds, b.seconds);
            && (Assess(larger).volume < Assess(input).volume <==> SavesMore(a.volume, b.volume, n, n'))
            && (Assess(larger).network < Assess(input).network <==> SavesMore(a.network, b.network, n, n'))
            && (Assess(larger).seconds < Assess(input).seconds <==> SavesMore(a.seconds, b.seconds, n, n'))
            && Assess(input).peak <= Assess(larger).peak
            && Assess(input).written <= Assess(larger).written
  {
    var larger := input.(ids := input.ids + more);
    var a, b := CostsOf(input.registry, input.ids), CostsOf(input.registry, input.ids + more);
    var n, n' := Cycles(input.cycleTargetSeconds, a.seconds), Cycles(input.cycleTargetSeconds, b.seconds);
    AppendingCosts(input.registry, input.ids, more);
    TotalsAre(input, a);
    TotalsAre(larger, b);
    FallsWhenItSaves(a.volume, b.volume, n, n');
    FallsWhenItSaves(a.network, b.network, n, n');
    FallsWhenItSaves(a.seconds, b.seconds, n, n');
  }
}
