/**
 The agent's list of runs: claiming the single-run slot, and evicting finished
 runs. `Manager` is the code; the step system below it interleaves any number of
 starts with the tasks of the runs already accepted.
*/
module Registry {
  import opened Prelude
  import opened RunEvents

  const RETAINED_RUNS_IN_MEMORY: nat := 8

  datatype RunId = RunId(text: string)

  /** What the registry consults: each handle's published state, and which run directories hold `bundle.json`. */
  datatype World = World(states: map<RunId, RunState>, bundles: set<RunId>)

  predicate Active(w: World, id: RunId) {
    id in w.states && !w.states[id].IsTerminal()
  }

  predicate Replayable(w: World, id: RunId) {
    id in w.states && w.states[id].IsTerminal() && id in w.bundles
  }

  function Replayables(w: World, runs: seq<RunId>): seq<RunId> {
    if runs == [] then []
    else (if Replayable(w, runs[0]) then [runs[0]] else []) + Replayables(w, runs[1..])
  }

  function Others(w: World, runs: seq<RunId>): seq<RunId> {
    if runs == [] then []
    else (if Replayable(w, runs[0]) then [] else [runs[0]]) + Others(w, runs[1..])
  }

  /** In order: every run disk cannot answer for, and each replayable run with fewer than eight newer ones. */
  function Retained(w: World, runs: seq<RunId>): seq<RunId> {
    if runs == [] then []
    else
      (if !Replayable(w, runs[0]) || |Replayables(w, runs[1..])| < RETAINED_RUNS_IN_MEMORY then [runs[0]] else []) +
      Retained(w, runs[1..])
  }

  /** Eviction keeps every run disk cannot answer for, and exactly the newest eight of the rest. */
  lemma {:induction false} EvictionKeepsTheNewestEight(w: World, runs: seq<RunId>)
    ensures Others(w, Retained(w, runs)) == Others(w, runs)
    ensures Replayables(w, Retained(w, runs)) == LastN(Replayables(w, runs), RETAINED_RUNS_IN_MEMORY)
  {
    if runs != [] {
      EvictionKeepsTheNewestEight(w, runs[1..]);
      var rest := Retained(w, runs[1..]);
      assert ([runs[0]] + rest)[1..] == rest;
      assert Retained(w, runs) == rest || Retained(w, runs) == [runs[0]] + rest;
    }
  }

  lemma {:induction false} FewAreAllRetained(w: World, runs: seq<RunId>)
    requires |Replayables(w, runs)| <= RETAINED_RUNS_IN_MEMORY
    ensures Retained(w, runs) == runs
  {
    if runs != [] {
      FewAreAllRetained(w, runs[1..]);
    }
  }

  lemma {:induction false} RetainedMembers(w: World, runs: seq<RunId>, id: RunId)
    ensures id in Retained(w, runs) ==> id in runs
    ensures id in runs && !Replayable(w, id) ==> id in Retained(w, runs)
  {
    if runs != [] {
      RetainedMembers(w, runs[1..], id);
    }
  }

  /** Both passes, one run at a time. */
  lemma TailStep(w: World, runs: seq<RunId>, i: nat)
    requires i < |runs|
    ensures |Replayables(w, runs[i..])| == |Replayables(w, runs[i + 1..])| + if Replayable(w, runs[i]) then 1 else 0
    ensures Retained(w, runs[i..]) ==
            (if Replayable(w, runs[i]) && |Replayables(w, runs[i..])| > RETAINED_RUNS_IN_MEMORY
             then [] else [runs[i]]) +
            Retained(w, runs[i + 1..])
  {
    assert runs[i..][0] == runs[i] && runs[i..][1..] == runs[i + 1..];
  }

  lemma {:induction false} RetainedDistinct(w: World, runs: seq<RunId>)
    requires Distinct(runs)
    ensures Distinct(Retained(w, runs))
  {
    if runs != [] {
      RetainedDistinct(w, runs[1..]);
      RetainedMembers(w, runs[1..], runs[0]);
    }
  }

  datatype StartError<ModuleId> = UnknownModules(ids: seq<ModuleId>) | NoModules | AlreadyRunning(active: RunId)

  datatype Started<ModuleId> = Accepted | Rejected(error: StartError<ModuleId>)

  function Unknown<ModuleId(==)>(ids: seq<ModuleId>, known: set<ModuleId>): seq<ModuleId> {
    if ids == [] then []
    else (if ids[0] in known then [] else [ids[0]]) + Unknown(ids[1..], known)
  }

  class Manager {
    var runs: seq<RunId>

    method CountReplayable(w: World) returns (count: nat)
      ensures count == |Replayables(w, runs)|
    {
      count := 0;
      for i := 0 to |runs|
        invariant count + |Replayables(w, runs[i..])| == |Replayables(w, runs)|
      {
        TailStep(w, runs, i);
        if Replayable(w, runs[i]) {
          count := count + 1;
        }
      }
    }

    /** Two passes, as the list is counted before it is thinned. */
    method EvictReplayable(w: World)
      modifies this
      ensures runs == Retained(w, old(runs))
    {
      var evictable := CountReplayable(w);
      if evictable <= RETAINED_RUNS_IN_MEMORY {
        FewAreAllRetained(w, runs);
        return;
      }
      runs := Thinned(w, evictable);
    }

    /** The thinning pass, oldest run first. */
    method Thinned(w: World, count: nat) returns (kept: seq<RunId>)
      requires count == |Replayables(w, runs)| > RETAINED_RUNS_IN_MEMORY
      ensures kept == Retained(w, runs)
    {
      var evictable := count;
      kept := [];
      for i := 0 to |runs|
        invariant evictable == Max(RETAINED_RUNS_IN_MEMORY, |Replayables(w, runs[i..])|)
        invariant kept + Retained(w, runs[i..]) == Retained(w, runs)
      {
        TailStep(w, runs, i);
        if evictable > RETAINED_RUNS_IN_MEMORY && Replayable(w, runs[i]) {
          evictable := evictable - 1;
        } else {
          assert kept + ([runs[i]] + Retained(w, runs[i + 1..])) == (kept + [runs[i]]) + Retained(w, runs[i + 1..]);
          kept := kept + [runs[i]];
        }
      }
    }

    /** A refused start changes nothing; an accepted one found no run in flight. */
    method Start<ModuleId(==)>(
      w: World, id: RunId, requested: Option<seq<ModuleId>>, known: set<ModuleId>, ofProfile: seq<ModuleId>)
      returns (r: Started<ModuleId>)
      requires id !in w.states || w.states[id] == Created
      modifies this
      ensures r.Rejected? ==> runs == old(runs)
      ensures r.Accepted? ==> runs == Retained(w, old(runs) + [id]) && forall k :: k in old(runs) ==> !Active(w, k)
      ensures r.Accepted? ==> id in runs
      ensures r == Rejected(NoModules) <==> requested.Or(ofProfile) == []
      ensures r.Rejected? && r.error.UnknownModules? <==> requested.Some? && Unknown(requested.value, known) != []
      ensures r.Rejected? && r.error.UnknownModules? ==> r.error.ids == Unknown(requested.value, known)
      ensures r.Rejected? && r.error.AlreadyRunning? ==> r.error.active in old(runs) && Active(w, r.error.active)
    {
      if requested.Some? && Unknown(requested.value, known) != [] {
        return Rejected(UnknownModules(Unknown(requested.value, known)));
      }
      if requested.Or(ofProfile) == [] {
        return Rejected(NoModules);
      }
      for i := 0 to |runs|
        invariant runs == old(runs)
        invariant forall k :: 0 <= k < i ==> !Active(w, runs[k])
      {
        if Active(w, runs[i]) {
          return Rejected(AlreadyRunning(runs[i]));
        }
      }
      runs := runs + [id];
      RetainedMembers(w, runs, id);
      EvictReplayable(w);
      r := Accepted;
    }
  }

  // ----- concurrent starts ---------------------------------------------------------------

  /** The write lock on the list, and how far its holder has got. States are read one at a time under it. */
  datatype Lock = Free | Scanning(claimant: RunId, next: nat) | Evicting(claimant: RunId)

  /** `waiting` have built a handle and want the lock; `entered` have been pushed; `spawned` have a task. */
  datatype System = System(
    runs: seq<RunId>, world: World, lock: Lock,
    waiting: set<RunId>, entered: set<RunId>, spawned: set<RunId>, refused: map<RunId, RunId>)

  datatype Step =
    | Build(id: RunId) | Acquire(id: RunId) | Inspect | Evict | Spawn(id: RunId)
    | Publish(id: RunId, state: RunState)
    | WriteBundle(id: RunId) | RemoveBundle(id: RunId)

  /** The order in which a run's task publishes states. */
  predicate Follows(a: RunState, b: RunState) {
    match a
    case Created => b == Preflight
    case Preflight => b == Running || b == Finalizing
    case Running => b == Finalizing
    case Finalizing => b.IsTerminal()
    case _ => false
  }

  const EMPTY: System := System([], World(map[], {}), Free, {}, {}, {}, map[])

  /** A step that is not enabled leaves the system as it is. */
  function Apply(s: System, step: Step): System {
    match step
    case Build(id) =>
      if id in s.world.states then s
      else s.(world := s.world.(states := s.world.states[id := Created]), waiting := s.waiting + {id})
    case Acquire(id) =>
      if s.lock.Free? && id in s.waiting then s.(lock := Scanning(id, 0), waiting := s.waiting - {id}) else s
    case Inspect => Inspected(s)
    case Evict => if s.lock.Evicting? then s.(runs := Retained(s.world, s.runs), lock := Free) else s
    case Spawn(id) =>
      if id in s.entered && s.lock != Evicting(id) then s.(spawned := s.spawned + {id}) else s
    case Publish(id, state) =>
      if id in s.spawned && id in s.world.states && Follows(s.world.states[id], state)
      then s.(world := s.world.(states := s.world.states[id := state])) else s
    case WriteBundle(id) =>
      if id in s.spawned then s.(world := s.world.(bundles := s.world.bundles + {id})) else s
    case RemoveBundle(id) => s.(world := s.world.(bundles := s.world.bundles - {id}))
  }

  function Inspected(s: System): System {
    if !s.lock.Scanning? then s
    else if s.lock.next < |s.runs| then
      var run := s.runs[s.lock.next];
      if Active(s.world, run) then s.(lock := Free, refused := s.refused[s.lock.claimant := run])
      else s.(lock := Scanning(s.lock.claimant, s.lock.next + 1))
    else
      s.(runs := s.runs + [s.lock.claimant], entered := s.entered + {s.lock.claimant},
         lock := Evicting(s.lock.claimant))
  }

  function Run(s: System, steps: seq<Step>): System
    decreases steps
  {
    if steps == [] then s else Run(Apply(s, steps[0]), steps[1..])
  }

  ghost predicate OneActive(s: System) {
    forall a, b :: a in s.entered && b in s.entered && Active(s.world, a) && Active(s.world, b) ==> a == b
  }

  /** A handle that never entered the list: no task, still `Created`. */
  ghost predicate Outside(s: System, id: RunId) {
    id !in s.entered && id !in s.runs && id !in s.spawned && id in s.world.states && s.world.states[id] == Created
  }

  ghost predicate Listed(s: System) {
    && Distinct(s.runs)
    && (forall id :: id in s.runs ==> id in s.entered)
    && (forall id :: id in s.entered && Active(s.world, id) ==> id in s.runs)
    && (forall id :: id in s.entered ==> id in s.world.states)
    && (forall id :: id in s.spawned ==> id in s.entered)
  }

  ghost predicate LockInv(s: System) {
    match s.lock
    case Free => true
    case Scanning(c, n) =>
      && n <= |s.runs| && Outside(s, c) && c !in s.waiting && c !in s.refused
      && forall k :: 0 <= k < n ==> !Active(s.world, s.runs[k])
    case Evicting(c) => c in s.runs && c !in s.spawned && OnlyActive(s, c) && s.world.states[c] == Created
  }

  ghost predicate OnlyActive(s: System, c: RunId)
  {
    && c in s.world.states
    && forall id :: id in s.entered && id != c ==> !Active(s.world, id)
  }

  ghost predicate Inv(s: System) {
    && OneActive(s) && Listed(s)
    && (forall id :: id in s.waiting ==> Outside(s, id) && id !in s.refused)
    && (forall id :: id in s.refused ==> Outside(s, id))
    && LockInv(s)
  }

  // ----- each step keeps the invariant ---------------------------------------------------

  lemma BuildKeeps(s: System, id: RunId)
    requires Inv(s)
    ensures Inv(Apply(s, Build(id)))
  {
  }

  lemma AcquireKeeps(s: System, id: RunId)
    requires Inv(s)
    ensures Inv(Apply(s, Acquire(id)))
  {
  }

  /** Terminal states are final, so the runs already scanned stay finished while the rest are read. */
  lemma ScanKeeps(s: System)
    requires Inv(s) && s.lock.Scanning? && s.lock.next < |s.runs|
    ensures Inv(Apply(s, Inspect))
  {
  }

  lemma NoneActive(s: System)
    requires Inv(s) && s.lock.Scanning? && s.lock.next == |s.runs|
    ensures forall id :: id in s.entered ==> !Active(s.world, id)
  {
    assert forall id :: id in s.entered && Active(s.world, id) ==> id in s.runs;
  }

  lemma PushKeeps(s: System)
    requires Inv(s) && s.lock.Scanning? && s.lock.next == |s.runs|
    ensures Inv(Apply(s, Inspect))
  {
    var t := Apply(s, Inspect);
    NoneActive(s);
    assert t.world == s.world;
    assert forall id :: id in t.runs <==> id in s.runs || id == s.lock.claimant;
  }

  lemma InspectKeeps(s: System)
    requires Inv(s)
    ensures Inv(Apply(s, Inspect))
  {
    if s.lock.Scanning? {
      if s.lock.next < |s.runs| {
        ScanKeeps(s);
      } else {
        PushKeeps(s);
      }
    }
  }

  lemma EvictKeeps(s: System)
    requires Inv(s)
    ensures Inv(Apply(s, Evict))
  {
    RetainedDistinct(s.world, s.runs);
    forall id {
      RetainedMembers(s.world, s.runs, id);
    }
  }

  lemma SpawnKeeps(s: System, id: RunId)
    requires Inv(s)
    ensures Inv(Apply(s, Spawn(id)))
  {
  }

  lemma PublishKeeps(s: System, id: RunId, state: RunState)
    requires Inv(s)
    ensures Inv(Apply(s, Publish(id, state)))
  {
    var t := Apply(s, Publish(id, state));
    assert forall k :: Active(t.world, k) ==> Active(s.world, k);
  }

  lemma BundlesKeep(s: System, id: RunId)
    requires Inv(s)
    ensures Inv(Apply(s, WriteBundle(id))) && Inv(Apply(s, RemoveBundle(id)))
  {
    assert forall bundles, k :: Active(World(s.world.states, bundles), k) <==> Active(s.world, k);
  }

  lemma StepKeepsInv(s: System, step: Step)
    requires Inv(s)
    ensures Inv(Apply(s, step))
  {
    match step
    case Build(id) => BuildKeeps(s, id);
    case Acquire(id) => AcquireKeeps(s, id);
    case Inspect => InspectKeeps(s);
    case Evict => EvictKeeps(s);
    case Spawn(id) => SpawnKeeps(s, id);
    case Publish(id, state) => PublishKeeps(s, id, state);
    case WriteBundle(id) => BundlesKeep(s, id);
    case RemoveBundle(id) => BundlesKeep(s, id);
  }

  lemma {:induction false} RunKeepsInv(s: System, steps: seq<Step>)
    requires Inv(s)
    ensures Inv(Run(s, steps))
    decreases steps
  {
    if steps != [] {
      StepKeepsInv(s, steps[0]);
      RunKeepsInv(Apply(s, steps[0]), steps[1..]);
    }
  }

  /**
   However starts and running tasks interleave, at most one accepted run is in
   flight, it is still listed, and a refused start has left no trace.
  */
  lemma SlotHoldsOneRun(steps: seq<Step>)
    ensures var s := Run(EMPTY, steps);
            && OneActive(s)
            && (forall id :: id in s.entered && Active(s.world, id) ==> id in s.runs)
            && (forall id :: id in s.refused ==> Outside(s, id))
  {
    RunKeepsInv(EMPTY, steps);
  }

  /** A refusal names the one run in flight, and changes nothing but the answer given. */
  lemma RefusalIsJustified(steps: seq<Step>, step: Step, id: RunId)
    requires var s := Run(EMPTY, steps); id !in s.refused && id in Apply(s, step).refused
    ensures var s, t := Run(EMPTY, steps), Apply(Run(EMPTY, steps), step);
            && Active(s.world, t.refused[id]) && t.refused[id] in s.runs
            && (forall k :: k in s.entered && Active(s.world, k) ==> k == t.refused[id])
            && t == s.(lock := Free, refused := t.refused)
  {
    RunKeepsInv(EMPTY, steps);
  }

  /** A run enters only when no other is in flight; the whole scan agreed on one moment. */
  lemma AdmissionIsExclusive(steps: seq<Step>, step: Step, id: RunId)
    requires var s := Run(EMPTY, steps); id !in s.entered && id in Apply(s, step).entered
    ensures var s, t := Run(EMPTY, steps), Apply(Run(EMPTY, steps), step);
            && (forall k :: k in s.entered ==> !Active(s.world, k))
            && t.runs == s.runs + [id] && Active(t.world, id) && t.world == s.world
  {
    var s := Run(EMPTY, steps);
    RunKeepsInv(EMPTY, steps);
    if s.lock.Scanning? && s.lock.next == |s.runs| {
      NoneActive(s);
    }
  }

  /**
   No task can publish a state between the two passes of an eviction: the only
   run in flight is the one being pushed, whose task is not spawned yet.
  */
  lemma NothingMovesDuringEviction(steps: seq<Step>, id: RunId, state: RunState)
    requires Run(EMPTY, steps).lock.Evicting?
    ensures var s := Run(EMPTY, steps); Apply(s, Publish(id, state)) == s
  {
    RunKeepsInv(EMPTY, steps);
  }

  lemma EvictedAt(s: System, id: RunId)
    requires Inv(s) && s.lock.Evicting? && id in s.runs && id !in Retained(s.world, s.runs)
    ensures Replayable(s.world, id)
    ensures |Replayables(s.world, Retained(s.world, s.runs))| == RETAINED_RUNS_IN_MEMORY
    ensures s.lock.claimant in Retained(s.world, s.runs)
  {
    RetainedMembers(s.world, s.runs, id);
    RetainedMembers(s.world, s.runs, s.lock.claimant);
    EvictionKeepsTheNewestEight(s.world, s.runs);
    if |Replayables(s.world, s.runs)| <= RETAINED_RUNS_IN_MEMORY {
      FewAreAllRetained(s.world, s.runs);
    }
  }

  /** What eviction drops is finished, on disk, and older than eight finished runs that stay. */
  lemma EvictedCanBeReplayed(steps: seq<Step>, id: RunId)
    requires var s := Run(EMPTY, steps); s.lock.Evicting? && id in s.runs && id !in Apply(s, Evict).runs
    ensures var s, t := Run(EMPTY, steps), Apply(Run(EMPTY, steps), Evict);
            && Replayable(s.world, id)
            && |Replayables(s.world, t.runs)| == RETAINED_RUNS_IN_MEMORY
            && s.lock.claimant in t.runs
  {
    RunKeepsInv(EMPTY, steps);
    EvictedAt(Run(EMPTY, steps), id);
  }

  // ----- a start that is left to run ----------------------------------------------------

  function Times(n: nat): seq<Step> {
    if n == 0 then [] else [Inspect] + Times(n - 1)
  }

  lemma {:induction false} ScanIsQuiet(s: System, n: nat)
    requires s.lock.Free?
    ensures Run(s, Times(n)) == s
  {
    if n > 0 {
      assert ([Inspect] + Times(n - 1))[1..] == Times(n - 1);
      ScanIsQuiet(s, n - 1);
    }
  }

  lemma {:induction false} ScanDecides(s: System, n: nat)
    requires Inv(s) && s.lock.Scanning? && n == |s.runs| - s.lock.next + 1
    ensures var t := Run(s, Times(n)); var c := s.lock.claimant;
            && (c in t.entered <==> forall k :: k in s.entered ==> !Active(s.world, k))
            && (c in t.refused <==> exists k :: k in s.entered && Active(s.world, k))
    decreases n
  {
    var t := Apply(s, Inspect);
    assert ([Inspect] + Times(n - 1))[1..] == Times(n - 1);
    InspectKeeps(s);
    if t.lock.Free? {
      ScanIsQuiet(t, n - 1);
    } else if t.lock.Scanning? {
      ScanDecides(t, n - 1);
    } else {
      assert n == 1 && Run(t, Times(0)) == t;
      assert forall k :: k in s.entered && Active(s.world, k) ==> k in s.runs;
    }
  }

  /**
   The slot is never lost: left to itself, a start is admitted exactly when no run
   is in flight, and otherwise refused.
  */
  lemma StartDecides(steps: seq<Step>, id: RunId)
    requires var s := Run(EMPTY, steps); s.lock.Free? && id in s.waiting
    ensures var s := Run(EMPTY, steps); var t := Run(s, [Acquire(id)] + Times(|s.runs| + 1));
            && (id in t.entered <==> forall k :: k in s.entered ==> !Active(s.world, k))
            && (id in t.refused <==> exists k :: k in s.entered && Active(s.world, k))
  {
    var s := Run(EMPTY, steps);
    RunKeepsInv(EMPTY, steps);
    AcquireKeeps(s, id);
    assert ([Acquire(id)] + Times(|s.runs| + 1))[1..] == Times(|s.runs| + 1);
    ScanDecides(Apply(s, Acquire(id)), |s.runs| + 1);
  }
}
