/** The run index as a cache over the bundles on disk: reconciliation and retention. */
module RunIndex {
  import opened Prelude

  datatype Bundle = Bundle(runId: string, finishedAt: int, result: ResultState, data: int)

  /** `content` is absent when this build cannot parse the file. */
  datatype BundleFile = BundleFile(size: int, mtime: int, content: Option<Bundle>)

  /** A directory under `runs/`; `isRunId` says whether its name parses as one. */
  datatype Entry = Entry(isRunId: bool, bundle: Option<BundleFile>, bytes: nat)

  type Directory = map<string, Entry>

  /** A row is everything read off a bundle, together with the size and time of its file. */
  datatype Row = Row(size: int, mtime: int, bundle: Bundle)

  type Rows = map<string, Row>

  predicate HasBundle(dir: Directory, name: string) {
    name in dir && dir[name].bundle.Some?
  }

  /** What reconciliation considers: run directories that hold a bundle. */
  predicate OnDisk(dir: Directory, name: string) {
    HasBundle(dir, name) && dir[name].isRunId
  }

  predicate IsCurrent(rows: Rows, name: string, file: BundleFile) {
    && name in rows
    && (rows[name].size, rows[name].mtime) != (0, 0)
    && (rows[name].size, rows[name].mtime) == (file.size, file.mtime)
  }

  /** Indexing one bundle replaces the row of the run it says it is. */
  function Recorded(rows: Rows, file: BundleFile): Rows
    requires file.content.Some?
  {
    rows[file.content.value.runId := Row(file.size, file.mtime, file.content.value)]
  }

  function Refreshed(rows: Rows, dir: Directory, name: string): Rows
    requires OnDisk(dir, name)
  {
    var file := dir[name].bundle.value;
    if IsCurrent(rows, name, file) || file.content.None? then rows else Recorded(rows, file)
  }

  datatype Reconciliation = Reconciliation(indexed: seq<string>, forgotten: seq<string>, unreadable: seq<string>)

  predicate AllOnDisk(names: seq<string>, dir: Directory) {
    forall n :: n in names ==> OnDisk(dir, n)
  }

  /** The rows after the first loop over `names`. */
  function Indexed(rows: Rows, dir: Directory, names: seq<string>): Rows
    requires AllOnDisk(names, dir)
  {
    if names == [] then rows
    else Refreshed(Indexed(rows, dir, names[..|names| - 1]), dir, names[|names| - 1])
  }

  /** The names the first loop re-indexes. */
  function Reindexed(rows: Rows, dir: Directory, names: seq<string>): seq<string>
    requires AllOnDisk(names, dir)
  {
    if names == [] then []
    else
      var before, name := names[..|names| - 1], names[|names| - 1];
      assert name in names;
      var file := dir[name].bundle.value;
      Reindexed(rows, dir, before) +
      if !IsCurrent(Indexed(rows, dir, before), name, file) && file.content.Some? then [name] else []
  }

  /** The names the first loop cannot parse and so leaves alone. */
  function Unreadable(rows: Rows, dir: Directory, names: seq<string>): seq<string>
    requires AllOnDisk(names, dir)
  {
    if names == [] then []
    else
      var before, name := names[..|names| - 1], names[|names| - 1];
      assert name in names;
      var file := dir[name].bundle.value;
      Unreadable(rows, dir, before) +
      if !IsCurrent(Indexed(rows, dir, before), name, file) && file.content.None? then [name] else []
  }

  /** The rows that survive the second loop. */
  function Surviving(rows: Rows, dir: Directory): Rows {
    map id | id in rows && HasBundle(dir, id) :: rows[id]
  }

  datatype Policy = Policy(cutoff: Option<int>, keepLast: Option<nat>)

  /**
   A policy, and what it meets: a `stuck` directory cannot be deleted whole, and
   what is left of it is given; a `locked` row cannot be dropped. Neither stops the rest.
  */
  datatype Setting = Setting(policy: Policy, dryRun: bool, stuck: Directory, locked: set<string>)

  datatype PruneOutcome = PruneOutcome(
    removed: seq<string>, failed: seq<string>, evidence: seq<string>, bytesFreed: nat)

  class RunStore {
    var dir: Directory
    var rows: Rows

    constructor (dir: Directory, rows: Rows)
      ensures this.dir == dir && this.rows == rows
    {
      this.dir, this.rows := dir, rows;
    }

    /** Refreshes changed rows, then drops rows that have lost their bundle. `listing` is the directory's contents. */
    method Reconcile(listing: seq<string>) returns (outcome: Reconciliation, ghost names: seq<string>)
      requires Lists(listing, dir.Keys)
      modifies this`rows
      ensures Lists(names, set n | n in dir && OnDisk(dir, n))
      ensures rows == Surviving(Indexed(old(rows), dir, names), dir)
      ensures outcome.indexed == Reindexed(old(rows), dir, names)
      ensures outcome.unreadable == Unreadable(old(rows), dir, names)
      ensures Lists(outcome.forgotten, (Indexed(old(rows), dir, names)).Keys - rows.Keys)
    {
      var onDisk := [];
      for i := 0 to |listing|
        invariant forall n :: n in onDisk <==> n in listing[..i] && OnDisk(dir, n)
        invariant Distinct(onDisk)
      {
        if OnDisk(dir, listing[i]) {
          onDisk := onDisk + [listing[i]];
        }
      }
      names := onDisk;
      var indexed, unreadable := [], [];
      for i := 0 to |onDisk|
        invariant rows == Indexed(old(rows), dir, onDisk[..i])
        invariant indexed == Reindexed(old(rows), dir, onDisk[..i])
        invariant unreadable == Unreadable(old(rows), dir, onDisk[..i])
      {
        var name := onDisk[i];
        assert name in onDisk;
        assert onDisk[..i + 1][..i] == onDisk[..i];
        var file := dir[name].bundle.value;
        if IsCurrent(rows, name, file) {
          continue;
        }
        match file.content
        case Some(bundle) =>
          rows := rows[bundle.runId := Row(file.size, file.mtime, bundle)];
          indexed := indexed + [name];
        case None =>
          unreadable := unreadable + [name];
      }
      assert onDisk[..|onDisk|] == onDisk;
      var forgotten := Forget(onDisk);
      outcome := Reconciliation(indexed, forgotten, unreadable);
    }

    /** Drops every row without a bundle file behind it. */
    method Forget(onDisk: seq<string>) returns (forgotten: seq<string>)
      requires AllOnDisk(onDisk, dir)
      modifies this`rows
      ensures rows == Surviving(old(rows), dir)
      ensures Lists(forgotten, old(rows).Keys - rows.Keys)
    {
      forgotten := [];
      var known := rows.Keys;
      while known != {}
        invariant known <= rows.Keys <= old(rows).Keys
        invariant forall id :: id in rows ==> rows[id] == old(rows)[id]
        invariant forall id :: id in old(rows) && id !in known ==> (id in rows <==> HasBundle(dir, id))
        invariant Lists(forgotten, old(rows).Keys - rows.Keys)
        decreases known
      {
        var id :| id in known;
        known := known - {id};
        if id in onDisk {
          continue;
        }
        if HasBundle(dir, id) {
          continue;
        }
        rows := rows - {id};
        forgotten := forgotten + [id];
      }
      assert rows == Surviving(old(rows), dir);
    }

    /**
     Decides one run's fate and carries it out, directory first and row second, so
     that a run whose directory resists stays in the list.
    */
    method Dispose(w: Setting, id: string, position: nat) returns (fate: Fate, bytes: nat)
      requires id in rows
      modifies this
      ensures fate == FateOf(w, old(rows)[id].bundle, position, id, id in old(dir))
      ensures bytes == if fate.Removed? && id in old(dir) then old(dir)[id].bytes else 0
      ensures dir == DirAfter(w, old(dir), id, fate)
      ensures rows == RowsAfter(w, old(rows), id, fate)
    {
      var run := rows[id].bundle;
      if !Selects(w.policy, run, position) {
        return Kept, 0;
      }
      if run.result.Invalid? {
        return Evidence, 0;
      }
      bytes := if id in dir then dir[id].bytes else 0;
      if !w.dryRun {
        if id in dir && id in w.stuck {
          dir := dir[id := w.stuck[id]];
          return Failed, 0;
        }
        dir := dir - {id};
        if id in w.locked {
          return Failed, 0;
        }
        rows := rows - {id};
      }
      fate := Removed;
    }

    /** One turn of the loop over the list. */
    method Turn(w: Setting, order: seq<string>, i: nat, so: PruneOutcome, ghost rows0: Rows, ghost dir0: Directory)
      returns (next: PruneOutcome)
      requires Lists(order, rows0.Keys) && i < |order|
      requires UpTo(w, rows0, dir0, rows, dir, order, i, so)
      modifies this
      ensures UpTo(w, rows0, dir0, rows, dir, order, i + 1, next)
    {
      ghost var rows1, dir1 := rows, dir;
      NextIsUntouched(w, rows0, dir0, rows, dir, order, i, so.removed, so.failed);
      var fate, bytes := Dispose(w, order[i], i);
      TurnStep(w, rows0, dir0, rows1, dir1, order, i, so, fate);
      next := Counted(so, order[i], fate, bytes);
    }

    /** The loop over the list. */
    method PruneSelected(w: Setting, order: seq<string>) returns (outcome: PruneOutcome)
      requires Lists(order, rows.Keys)
      modifies this
      ensures UpTo(w, old(rows), old(dir), rows, dir, order, |order|, outcome)
    {
      outcome := PruneOutcome([], [], [], 0);
      NothingYet(w, rows, dir, order);
      for i := 0 to |order|
        invariant UpTo(w, old(rows), old(dir), rows, dir, order, i, outcome)
      {
        outcome := Turn(w, order, i, outcome, old(rows), old(dir));
      }
    }

    /** Applies a retention policy to `order`, the run list newest first. */
    method Prune(w: Setting, order: seq<string>, unreadableRows: nat) returns (result: Option<PruneOutcome>)
      requires Lists(order, rows.Keys)
      modifies this
      ensures result.None? <==> unreadableRows > 0 && !IsEmpty(w.policy)
      ensures result.Some? ==> result.value == Pruned(w, old(rows), old(dir), order)
      ensures result.None? || w.dryRun ==> rows == old(rows) && dir == old(dir)
      ensures result.Some? && !w.dryRun ==>
                && rows == old(rows) - AsSet(result.value.removed)
                && dir == DirLeft(old(dir), result.value.removed, result.value.failed, w.stuck)
    {
      if IsEmpty(w.policy) {
        NothingYet(w, rows, dir, order);
        return Some(PruneOutcome([], [], [], 0));
      }
      if unreadableRows > 0 {
        return None;
      }
      var outcome := PruneSelected(w, order);
      result := Some(outcome);
    }
  }

  function AsSet(ids: seq<string>): set<string> {
    set n | n in ids
  }

  /**
   The directories left: a stuck one keeps what could not be deleted; a failed run
   with a locked row has lost its own.
  */
  function DirLeft(dir: Directory, removed: seq<string>, failed: seq<string>, stuck: Directory): Directory {
    map n | n in dir && n !in removed && (n in failed ==> n in stuck) :: if n in failed then stuck[n] else dir[n]
  }

  function Only(yes: bool, id: string): seq<string> {
    if yes then [id] else []
  }

  function DirAfter(w: Setting, dir: Directory, id: string, fate: Fate): Directory {
    if w.dryRun then dir
    else if fate.Failed? && id in dir && id in w.stuck then dir[id := w.stuck[id]]
    else if fate.Failed? || fate.Removed? then dir - {id}
    else dir
  }

  function RowsAfter(w: Setting, rows: Rows, id: string, fate: Fate): Rows {
    if !w.dryRun && fate.Removed? then rows - {id} else rows
  }

  /** Part way through a prune: only runs already `done` are touched, and what is left is what the lists say. */
  ghost predicate Progress(w: Setting, rows0: Rows, dir0: Directory, rows: Rows, dir: Directory, done: seq<string>,
                           removed: seq<string>, failed: seq<string>)
  {
    && (forall id :: id in removed || id in failed ==> id in done)
    && rows == (if w.dryRun then rows0 else rows0 - AsSet(removed))
    && dir == (if w.dryRun then dir0 else DirLeft(dir0, removed, failed, w.stuck))
  }

  /** The lists are those of the first `n` runs' fates. */
  ghost predicate Counts(dir0: Directory, order: seq<string>, fates: nat -> Fate, n: nat, so: PruneOutcome)
    requires n <= |order|
  {
    && so.removed == Pick(order, n, Being(fates, Removed))
    && so.failed == Pick(order, n, Being(fates, Failed))
    && so.evidence == Pick(order, n, Being(fates, Evidence))
    && so.bytesFreed == TotalBytes(dir0, so.removed)
  }

  /** The first `n` runs have met their fates. */
  ghost predicate UpTo(w: Setting, rows0: Rows, dir0: Directory, rows: Rows, dir: Directory, order: seq<string>, n: nat,
                       so: PruneOutcome)
    requires n <= |order|
  {
    && Counts(dir0, order, Fates(w, rows0, dir0, order), n, so)
    && Progress(w, rows0, dir0, rows, dir, order[..n], so.removed, so.failed)
  }

  /** The outcome with one more run counted. */
  function Counted(so: PruneOutcome, id: string, fate: Fate, bytes: nat): PruneOutcome {
    PruneOutcome(so.removed + Only(fate.Removed?, id), so.failed + Only(fate.Failed?, id),
                 so.evidence + Only(fate.Evidence?, id), so.bytesFreed + bytes)
  }

  lemma CountStep(dir0: Directory, order: seq<string>, fates: nat -> Fate, i: nat, so: PruneOutcome, fate: Fate)
    requires i < |order| && Counts(dir0, order, fates, i, so) && fate == fates(i)
    ensures var bytes := if fate.Removed? && order[i] in dir0 then dir0[order[i]].bytes else 0;
            Counts(dir0, order, fates, i + 1, Counted(so, order[i], fate, bytes))
  {
    BytesSnoc(dir0, so.removed, order[i], fate.Removed?);
    PicksNext(order, i, fates, fate);
  }

  lemma NothingYet(w: Setting, rows: Rows, dir: Directory, order: seq<string>)
    ensures rows - AsSet([]) == rows && DirLeft(dir, [], [], w.stuck) == dir
    ensures UpTo(w, rows, dir, rows, dir, order, 0, PruneOutcome([], [], [], 0))
  {
  }

  lemma NextIsUntouched(w: Setting, rows0: Rows, dir0: Directory, rows: Rows, dir: Directory,
                        order: seq<string>, i: nat,
                        removed: seq<string>, failed: seq<string>)
    requires Lists(order, rows0.Keys) && i < |order|
    requires Progress(w, rows0, dir0, rows, dir, order[..i], removed, failed)
    ensures var id := order[i];
            && id !in removed && id !in failed
            && id in rows0 && id in rows && rows[id] == rows0[id]
            && (id in dir <==> id in dir0) && (id in dir0 ==> dir[id] == dir0[id])
  {
    assert order[i] in order && order[i] !in order[..i];
  }

  /** What removing, or failing to remove, one more run leaves. */
  lemma OneLess(rows: Rows, dir: Directory, removed: seq<string>, failed: seq<string>, stuck: Directory, id: string)
    requires id !in removed && id !in failed
    ensures rows - AsSet(removed + [id]) == rows - AsSet(removed) - {id}
    ensures DirLeft(dir, removed + [id], failed, stuck) == DirLeft(dir, removed, failed, stuck) - {id}
    ensures DirLeft(dir, removed, failed + [id], stuck) ==
            if id in dir && id in stuck then DirLeft(dir, removed, failed, stuck)[id := stuck[id]]
            else DirLeft(dir, removed, failed, stuck) - {id}
  {
  }

  lemma ProgressStep(w: Setting, rows0: Rows, dir0: Directory, rows: Rows, dir: Directory, order: seq<string>, i: nat,
                     removed: seq<string>, failed: seq<string>, fate: Fate)
    requires Lists(order, rows0.Keys) && i < |order|
    requires Progress(w, rows0, dir0, rows, dir, order[..i], removed, failed)
    ensures Progress(w, rows0, dir0, RowsAfter(w, rows, order[i], fate), DirAfter(w, dir, order[i], fate),
                     order[..i + 1], removed + Only(fate.Removed?, order[i]), failed + Only(fate.Failed?, order[i]))
  {
    var id := order[i];
    assert order[..i + 1] == order[..i] + [id];
    NextIsUntouched(w, rows0, dir0, rows, dir, order, i, removed, failed);
    OneLess(rows0, dir0, removed, failed, w.stuck, id);
    assert removed + [] == removed && failed + [] == failed;
  }

  lemma TurnStep(w: Setting, rows0: Rows, dir0: Directory, rows: Rows, dir: Directory, order: seq<string>, i: nat,
                 so: PruneOutcome, fate: Fate)
    requires Lists(order, rows0.Keys) && i < |order| && UpTo(w, rows0, dir0, rows, dir, order, i, so)
    requires fate == Fates(w, rows0, dir0, order)(i)
    ensures var id := order[i];
            var bytes := if fate.Removed? && id in dir0 then dir0[id].bytes else 0;
            UpTo(w, rows0, dir0, RowsAfter(w, rows, id, fate), DirAfter(w, dir, id, fate), order, i + 1,
                 Counted(so, id, fate, bytes))
  {
    CountStep(dir0, order, Fates(w, rows0, dir0, order), i, so, fate);
    ProgressStep(w, rows0, dir0, rows, dir, order, i, so.removed, so.failed, fate);
  }

  predicate IsEmpty(policy: Policy) {
    policy.cutoff.None? && policy.keepLast.None?
  }

  /** Whether the policy selects the run at `position` of the newest-first list. */
  predicate Selects(policy: Policy, run: Bundle, position: nat) {
    || (policy.cutoff.Some? && run.finishedAt < policy.cutoff.value)
    || (policy.keepLast.Some? && position >= policy.keepLast.value)
  }

  /** The elements at the positions below `n` that satisfy `p`, in order. */
  function Pick(s: seq<string>, n: nat, p: nat -> bool): seq<string>
    requires n <= |s|
  {
    if n == 0 then [] else Pick(s, n - 1, p) + Only(p(n - 1), s[n - 1])
  }

  /** One more run joins the list its fate names. */
  lemma PicksNext(order: seq<string>, i: nat, fates: nat -> Fate, fate: Fate)
    requires i < |order| && fate == fates(i)
    ensures Pick(order, i + 1, Being(fates, Removed)) ==
            Pick(order, i, Being(fates, Removed)) + Only(fate.Removed?, order[i])
    ensures Pick(order, i + 1, Being(fates, Failed)) ==
            Pick(order, i, Being(fates, Failed)) + Only(fate.Failed?, order[i])
    ensures Pick(order, i + 1, Being(fates, Evidence)) ==
            Pick(order, i, Being(fates, Evidence)) + Only(fate.Evidence?, order[i])
  {
  }

  function TotalBytes(dir: Directory, ids: seq<string>): nat {
    if ids == [] then 0
    else TotalBytes(dir, ids[..|ids| - 1]) +
         if ids[|ids| - 1] in dir then dir[ids[|ids| - 1]].bytes else 0
  }

  lemma BytesSnoc(dir: Directory, ids: seq<string>, id: string, yes: bool)
    ensures TotalBytes(dir, ids + Only(yes, id)) ==
            TotalBytes(dir, ids) + if yes && id in dir then dir[id].bytes else 0
  {
    if yes {
      assert (ids + [id])[..|ids|] == ids;
    } else {
      assert ids + [] == ids;
    }
  }

  datatype Fate = Kept | Evidence | Removed | Failed

  /** What becomes of one run; `present` says whether it has a directory. */
  function FateOf(w: Setting, run: Bundle, position: nat, id: string, present: bool): Fate {
    if !Selects(w.policy, run, position) then Kept
    else if run.result.Invalid? then Evidence
    else if !w.dryRun && ((present && id in w.stuck) || id in w.locked) then Failed
    else Removed
  }

  function Fates(w: Setting, rows: Rows, dir: Directory, order: seq<string>): nat -> Fate {
    (k: nat) => if k < |order| && order[k] in rows
                then FateOf(w, rows[order[k]].bundle, k, order[k], order[k] in dir) else Kept
  }

  function Being(fates: nat -> Fate, fate: Fate): nat -> bool {
    (k: nat) => fates(k) == fate
  }

  /** The whole outcome of a prune, run by run. */
  function Pruned(w: Setting, rows: Rows, dir: Directory, order: seq<string>): PruneOutcome {
    if IsEmpty(w.policy) then PruneOutcome([], [], [], 0)
    else
      var fates := Fates(w, rows, dir, order);
      var removed := Pick(order, |order|, Being(fates, Removed));
      PruneOutcome(removed, Pick(order, |order|, Being(fates, Failed)), Pick(order, |order|, Being(fates, Evidence)),
                   TotalBytes(dir, removed))
  }

  // ----- reconciliation ----------------------------------------------------------------

  /** Each run directory is named after the run its bundle describes. */
  ghost predicate NamesMatch(dir: Directory) {
    forall n :: OnDisk(dir, n) && dir[n].bundle.value.content.Some? ==> dir[n].bundle.value.content.value.runId == n
  }

  ghost predicate Readable(dir: Directory, name: string) {
    OnDisk(dir, name) && dir[name].bundle.value.content.Some?
  }

  /** Size and modification time tell versions apart: a row stamped like a readable file says what it says. */
  ghost predicate IdentitySeparates(rows: Rows, dir: Directory) {
    forall n :: Readable(dir, n) && IsCurrent(rows, n, dir[n].bundle.value) ==>
                  dir[n].bundle.value.content == Some(rows[n].bundle)
  }

  /** A file that parses is not empty, so its identity is not the placeholder. */
  ghost predicate ReadableFilesAreStamped(dir: Directory) {
    forall n :: OnDisk(dir, n) && dir[n].bundle.value.content.Some? ==>
                  (dir[n].bundle.value.size, dir[n].bundle.value.mtime) != (0, 0)
  }

  /** Whether the first loop rewrites the row of `id`. */
  ghost predicate Rewrites(rows: Rows, dir: Directory, id: string) {
    OnDisk(dir, id) && !IsCurrent(rows, id, dir[id].bundle.value) && dir[id].bundle.value.content.Some?
  }

  ghost function RowOf(file: BundleFile): Row
    requires file.content.Some?
  {
    Row(file.size, file.mtime, file.content.value)
  }

  /** The first loop, read one run at a time. */
  lemma {:induction false} IndexedRow(rows: Rows, dir: Directory, names: seq<string>, id: string)
    requires AllOnDisk(names, dir) && NamesMatch(dir) && Distinct(names)
    ensures var after := Indexed(rows, dir, names);
            if id in names && Rewrites(rows, dir, id) then id in after && after[id] == RowOf(dir[id].bundle.value)
            else (id in after <==> id in rows) && (id in rows ==> after[id] == rows[id])
    decreases |names|
  {
    if names != [] {
      var before, last := names[..|names| - 1], names[|names| - 1];
      assert last in names && last !in before;
      IndexedRow(rows, dir, before, id);
      IndexedRow(rows, dir, before, last);
      assert id in names <==> id in before || id == last;
    }
  }

  lemma {:induction false} ReindexedMeansRewritten(rows: Rows, dir: Directory, names: seq<string>)
    requires AllOnDisk(names, dir) && NamesMatch(dir) && Distinct(names)
    requires forall n :: n in names ==> !Rewrites(rows, dir, n)
    ensures Reindexed(rows, dir, names) == [] && Indexed(rows, dir, names) == rows
    decreases |names|
  {
    if names != [] {
      assert names[|names| - 1] in names;
      ReindexedMeansRewritten(rows, dir, names[..|names| - 1]);
    }
  }

  ghost function OnDiskSet(dir: Directory): set<string> {
    set n | n in dir && OnDisk(dir, n)
  }

  /** The rows a whole reconciliation leaves. */
  ghost function Reconciled(rows: Rows, dir: Directory, names: seq<string>): Rows
    requires AllOnDisk(names, dir)
  {
    Surviving(Indexed(rows, dir, names), dir)
  }

  /**
   Afterwards the index agrees with the disk: every readable bundle has a row for
   what it says now, no row lacks a bundle file, and the row of a bundle that
   cannot be read is left as it was.
  */
  lemma ReconcileAgreesWithDisk(rows: Rows, dir: Directory, names: seq<string>)
    requires Lists(names, OnDiskSet(dir)) && NamesMatch(dir) && IdentitySeparates(rows, dir)
    ensures var after := Reconciled(rows, dir, names);
            && (forall n :: OnDisk(dir, n) && dir[n].bundle.value.content.Some? ==>
                  n in after && Some(after[n].bundle) == dir[n].bundle.value.content)
            && (forall n :: n in after ==> HasBundle(dir, n))
            && (forall n :: OnDisk(dir, n) && dir[n].bundle.value.content.None? ==>
                  (n in after <==> n in rows) && (n in rows ==> after[n] == rows[n]))
  {
    forall n {
      IndexedRow(rows, dir, names, n);
    }
  }

  /** A second pass over an unchanged disk indexes and forgets nothing. */
  lemma ReconcileIsIdempotent(rows: Rows, dir: Directory, names: seq<string>, again: seq<string>)
    requires Lists(names, OnDiskSet(dir)) && Lists(again, OnDiskSet(dir))
    requires NamesMatch(dir) && ReadableFilesAreStamped(dir)
    ensures var after := Reconciled(rows, dir, names);
            Reindexed(after, dir, again) == [] && Reconciled(after, dir, again) == after
  {
    var after := Reconciled(rows, dir, names);
    forall n | n in again
      ensures !Rewrites(after, dir, n)
    {
      IndexedRow(rows, dir, names, n);
    }
    ReindexedMeansRewritten(after, dir, again);
  }

  /**
   Matching names are needed: alone, a directory holding another run's bundle is
   re-indexed by a pass and its row forgotten again by the same pass.
  */
  lemma MisnamedBundleNeverSettles(name: string, file: BundleFile)
    requires file.content.Some? && file.content.value.runId != name
    ensures var dir := map[name := Entry(true, Some(file), 0)];
            Reindexed(map[], dir, [name]) == [name] && Reconciled(map[], dir, [name]) == map[]
  {
    var dir := map[name := Entry(true, Some(file), 0)];
    assert [name][..0] == [];
    assert Indexed(map[], dir, [name]) == Recorded(map[], file);
    assert Reindexed(map[], dir, [name]) == [] + [name];
  }

  /** No two readable bundles share a size and a modification time. */
  ghost predicate IdentitiesDiffer(dir: Directory) {
    forall m, n :: Readable(dir, m) && Readable(dir, n) && m != n ==> Identity(dir, m) != Identity(dir, n)
  }

  ghost function Identity(dir: Directory, name: string): (int, int)
    requires OnDisk(dir, name)
  {
    (dir[name].bundle.value.size, dir[name].bundle.value.mtime)
  }

  /** Every row is filed under its own run, and one stamped like a readable bundle was built from it. */
  ghost predicate Sourced(rows: Rows, dir: Directory) {
    && (forall id :: id in rows ==> rows[id].bundle.runId == id)
    && (forall id, n :: id in rows && Readable(dir, n) && (rows[id].size, rows[id].mtime) == Identity(dir, n) ==>
          dir[n].bundle.value.content == Some(rows[id].bundle))
  }

  lemma RecordedStaysSourced(rows: Rows, dir: Directory, name: string)
    requires Sourced(rows, dir) && IdentitiesDiffer(dir) && Readable(dir, name)
    ensures Sourced(Recorded(rows, dir[name].bundle.value), dir)
  {
  }

  lemma {:induction false} IndexedStaysSourced(rows: Rows, dir: Directory, names: seq<string>)
    requires AllOnDisk(names, dir) && Sourced(rows, dir) && IdentitiesDiffer(dir)
    ensures Sourced(Indexed(rows, dir, names), dir)
    decreases |names|
  {
    if names != [] {
      var before, last := names[..|names| - 1], names[|names| - 1];
      assert last in names;
      IndexedStaysSourced(rows, dir, before);
      if Readable(dir, last) {
        RecordedStaysSourced(Indexed(rows, dir, before), dir, last);
      }
    }
  }

  /** A bundle in another run's directory never counts as current there, so every pass indexes it. */
  lemma {:induction false} MisnamedIsReindexed(rows: Rows, dir: Directory, names: seq<string>, n: string)
    requires AllOnDisk(names, dir) && Sourced(rows, dir) && IdentitiesDiffer(dir)
    requires n in names && Readable(dir, n) && dir[n].bundle.value.content.value.runId != n
    ensures n in Reindexed(rows, dir, names)
    decreases |names|
  {
    var before, last := names[..|names| - 1], names[|names| - 1];
    if last == n {
      IndexedStaysSourced(rows, dir, before);
    } else {
      MisnamedIsReindexed(rows, dir, before, n);
    }
  }

  /**
   When no two bundles share an identity, a second pass re-indexes nothing exactly
   when every directory is named after the run its bundle describes.
  */
  lemma SecondPassSettlesExactly(rows: Rows, dir: Directory, names: seq<string>, again: seq<string>)
    requires Lists(names, OnDiskSet(dir)) && Lists(again, OnDiskSet(dir))
    requires Sourced(rows, dir) && IdentitiesDiffer(dir) && ReadableFilesAreStamped(dir)
    ensures Reindexed(Reconciled(rows, dir, names), dir, again) == [] <==> NamesMatch(dir)
  {
    var after := Reconciled(rows, dir, names);
    if NamesMatch(dir) {
      ReconcileIsIdempotent(rows, dir, names, again);
    } else {
      var n :| Readable(dir, n) && dir[n].bundle.value.content.value.runId != n;
      IndexedStaysSourced(rows, dir, names);
      assert Sourced(after, dir);
      assert n in OnDiskSet(dir);
      MisnamedIsReindexed(after, dir, again, n);
    }
  }

  /** Each readable bundle has a row that says what it says now. */
  ghost predicate AllIndexed(rows: Rows, dir: Directory) {
    forall n :: Readable(dir, n) ==> n in rows && Some(rows[n].bundle) == dir[n].bundle.value.content
  }

  /** One pass brings the index into agreement exactly when every directory is named after its bundle. */
  lemma OnePassAgreesExactly(rows: Rows, dir: Directory, names: seq<string>)
    requires Lists(names, OnDiskSet(dir)) && Sourced(rows, dir) && IdentitiesDiffer(dir)
    ensures AllIndexed(Reconciled(rows, dir, names), dir) <==> NamesMatch(dir)
  {
    var after := Reconciled(rows, dir, names);
    if NamesMatch(dir) {
      ReconcileAgreesWithDisk(rows, dir, names);
    } else {
      var n :| Readable(dir, n) && dir[n].bundle.value.content.value.runId != n;
      IndexedStaysSourced(rows, dir, names);
      assert n in after ==> after[n].bundle.runId == n;
    }
  }

  // ----- retention -----------------------------------------------------------------------

  lemma {:induction false} PickMembers(s: seq<string>, n: nat, p: nat -> bool)
    requires n <= |s|
    ensures forall id :: id in Pick(s, n, p) <==> exists k :: 0 <= k < n && p(k) && s[k] == id
  {
    if n > 0 {
      PickMembers(s, n - 1, p);
    }
  }

  /** Splitting a pick by fate loses and doubles nothing. */
  lemma {:induction false} FatesPartition(s: seq<string>, n: nat, fates: nat -> Fate)
    requires n <= |s|
    ensures multiset(Pick(s, n, Being(fates, Removed))) + multiset(Pick(s, n, Being(fates, Failed))) +
            multiset(Pick(s, n, Being(fates, Evidence))) ==
            multiset(Pick(s, n, Acted(fates)))
  {
    if n > 0 {
      FatesPartition(s, n - 1, fates);
      PartitionStep(PickedBag(s, n - 1, Being(fates, Removed)), PickedBag(s, n - 1, Being(fates, Failed)),
                    PickedBag(s, n - 1, Being(fates, Evidence)), PickedBag(s, n - 1, Acted(fates)),
                    multiset{s[n - 1]}, fates(n - 1));
      PickStep(s, n, Being(fates, Removed));
      PickStep(s, n, Being(fates, Failed));
      PickStep(s, n, Being(fates, Evidence));
      PickStep(s, n, Acted(fates));
    }
  }

  ghost function PickedBag(s: seq<string>, n: nat, p: nat -> bool): multiset<string>
    requires n <= |s|
  {
    multiset(Pick(s, n, p))
  }

  ghost function With(bag: multiset<string>, x: multiset<string>, yes: bool): multiset<string> {
    if yes then bag + x else bag
  }

  lemma PartitionStep(r: multiset<string>, f: multiset<string>, e: multiset<string>, all: multiset<string>,
                      x: multiset<string>, fate: Fate)
    requires r + f + e == all
    ensures With(r, x, fate.Removed?) + With(f, x, fate.Failed?) + With(e, x, fate.Evidence?) ==
            With(all, x, !fate.Kept?)
  {
  }

  /** Not kept, whatever then became of it. */
  function Acted(fates: nat -> Fate): nat -> bool {
    (k: nat) => fates(k) != Kept
  }

  lemma PickStep(s: seq<string>, n: nat, p: nat -> bool)
    requires 0 < n <= |s|
    ensures multiset(Pick(s, n, p)) == With(multiset(Pick(s, n - 1, p)), multiset{s[n - 1]}, p(n - 1))
  {
  }

  /** The positions of the list that the policy selects. */
  function Selected(policy: Policy, rows: Rows, order: seq<string>): nat -> bool {
    (k: nat) => k < |order| && order[k] in rows && Selects(policy, rows[order[k]].bundle, k)
  }

  /** Two fates never share a run, as the list names each once. */
  lemma FatesAreDisjoint(order: seq<string>, fates: nat -> Fate, a: Fate, b: Fate)
    requires a != b && Distinct(order)
    ensures AsSet(Pick(order, |order|, Being(fates, a))) !! AsSet(Pick(order, |order|, Being(fates, b)))
  {
    PickMembers(order, |order|, Being(fates, a));
    PickMembers(order, |order|, Being(fates, b));
  }

  /** A run's fate is something other than being kept exactly when the policy selects it. */
  lemma ActedIsSelected(w: Setting, rows: Rows, dir: Directory, order: seq<string>)
    requires Lists(order, rows.Keys)
    ensures Pick(order, |order|, Acted(Fates(w, rows, dir, order))) ==
            Pick(order, |order|, Selected(w.policy, rows, order))
  {
    var fates := Fates(w, rows, dir, order);
    forall k | 0 <= k < |order|
      ensures Acted(fates)(k) == Selected(w.policy, rows, order)(k)
    {
      assert order[k] in order;
    }
    PickAgrees(order, |order|, Acted(fates), Selected(w.policy, rows, order));
  }

  /** The three lists make up `selected` and share no run. */
  ghost predicate Partitions(r: PruneOutcome, selected: seq<string>) {
    && multiset(r.removed) + multiset(r.failed) + multiset(r.evidence) == multiset(selected)
    && AsSet(r.removed) !! AsSet(r.failed)
    && AsSet(r.removed) !! AsSet(r.evidence)
    && AsSet(r.failed) !! AsSet(r.evidence)
  }

  lemma EmptyPolicySelectsNothing(policy: Policy, rows: Rows, order: seq<string>)
    requires IsEmpty(policy)
    ensures Pick(order, |order|, Selected(policy, rows, order)) == []
  {
    PickNothing(order, |order|, Selected(policy, rows, order));
  }

  /**
   The removed, failed and retained runs of a prune are exactly the runs its
   policy selects, each counted once and in one list only.
  */
  lemma OutcomePartitionsSelection(w: Setting, rows: Rows, dir: Directory, order: seq<string>)
    requires Lists(order, rows.Keys)
    ensures Partitions(Pruned(w, rows, dir, order), Pick(order, |order|, Selected(w.policy, rows, order)))
  {
    if IsEmpty(w.policy) {
      EmptyPolicySelectsNothing(w.policy, rows, order);
    } else {
      var fates := Fates(w, rows, dir, order);
      ActedIsSelected(w, rows, dir, order);
      FatesPartition(order, |order|, fates);
      FatesAreDisjoint(order, fates, Removed, Failed);
      FatesAreDisjoint(order, fates, Removed, Evidence);
      FatesAreDisjoint(order, fates, Failed, Evidence);
    }
  }

  /** Where a run with a given fate stands in the list. */
  lemma PickedAt(order: seq<string>, fates: nat -> Fate, fate: Fate, id: string) returns (k: nat)
    requires id in Pick(order, |order|, Being(fates, fate))
    ensures k < |order| && fates(k) == fate && order[k] == id
  {
    PickMembers(order, |order|, Being(fates, fate));
    k :| 0 <= k < |order| && Being(fates, fate)(k) && order[k] == id;
  }

  /** A run that could not be removed stays listed, whichever half of its removal failed. */
  lemma FailedRunsStayListed(w: Setting, rows: Rows, dir: Directory, order: seq<string>, id: string)
    requires Lists(order, rows.Keys) && id in Pruned(w, rows, dir, order).failed
    ensures id in rows - AsSet(Pruned(w, rows, dir, order).removed)
  {
    var fates := Fates(w, rows, dir, order);
    FatesAreDisjoint(order, fates, Failed, Removed);
    var k := PickedAt(order, fates, Failed, id);
    assert order[k] in order && id in AsSet(Pruned(w, rows, dir, order).failed);
  }

  lemma RemovedWasSelected(w: Setting, rows: Rows, dir: Directory, order: seq<string>, id: string) returns (k: nat)
    requires Lists(order, rows.Keys) && id in Pruned(w, rows, dir, order).removed
    ensures k < |order| && order[k] == id && id in rows
    ensures !rows[id].bundle.result.Invalid? && Selects(w.policy, rows[id].bundle, k)
  {
    k := PickedAt(order, Fates(w, rows, dir, order), Removed, id);
    assert order[k] in order;
  }

  /** No invalid run and no unselected run is ever removed. */
  lemma PruneKeepsEvidence(w: Setting, rows: Rows, dir: Directory, order: seq<string>)
    requires Lists(order, rows.Keys)
    ensures forall id :: id in Pruned(w, rows, dir, order).removed ==>
              && id in rows && !rows[id].bundle.result.Invalid?
              && exists k :: 0 <= k < |order| && order[k] == id && Selects(w.policy, rows[id].bundle, k)
  {
    forall id | id in Pruned(w, rows, dir, order).removed
      ensures id in rows && !rows[id].bundle.result.Invalid?
      ensures exists k :: 0 <= k < |order| && order[k] == id && Selects(w.policy, rows[id].bundle, k)
    {
      var k := RemovedWasSelected(w, rows, dir, order, id);
    }
  }

  lemma {:induction false} PickAgrees(s: seq<string>, n: nat, p: nat -> bool, q: nat -> bool)
    requires n <= |s|
    requires forall k :: 0 <= k < n ==> p(k) == q(k)
    ensures Pick(s, n, p) == Pick(s, n, q)
  {
    if n > 0 {
      PickAgrees(s, n - 1, p, q);
    }
  }

  /** The setting of a prune that meets no failure. */
  function Smooth(policy: Policy): Setting {
    Setting(policy, false, map[], {})
  }

  /** A dry run reports exactly what a prune that meets no failure would do. */
  lemma DryRunPredicts(w: Setting, rows: Rows, dir: Directory, order: seq<string>)
    requires w.dryRun
    ensures Pruned(w, rows, dir, order) == Pruned(Smooth(w.policy), rows, dir, order)
  {
    var dry, wet := Fates(w, rows, dir, order), Fates(Smooth(w.policy), rows, dir, order);
    assert forall k: nat :: dry(k) == wet(k);
    PickAgrees(order, |order|, Being(dry, Removed), Being(wet, Removed));
    PickAgrees(order, |order|, Being(dry, Failed), Being(wet, Failed));
    PickAgrees(order, |order|, Being(dry, Evidence), Being(wet, Evidence));
  }

  /** An element never moves back when others are taken out of the list before it. */
  lemma {:induction false} PickMovesForward(s: seq<string>, n: nat, p: nat -> bool, j: nat) returns (k: nat)
    requires n <= |s| && j < |Pick(s, n, p)|
    ensures j <= k < n && p(k) && Pick(s, n, p)[j] == s[k]
  {
    if j < |Pick(s, n - 1, p)| {
      k := PickMovesForward(s, n - 1, p, j);
    } else {
      PickIsShort(s, n - 1, p);
      k := n - 1;
    }
  }

  lemma {:induction false} PickIsShort(s: seq<string>, n: nat, p: nat -> bool)
    requires n <= |s|
    ensures |Pick(s, n, p)| <= n
  {
    if n > 0 {
      PickIsShort(s, n - 1, p);
    }
  }

  lemma {:induction false} PickNothing(s: seq<string>, n: nat, p: nat -> bool)
    requires n <= |s| && forall k :: 0 <= k < n ==> !p(k)
    ensures Pick(s, n, p) == []
  {
    if n > 0 {
      PickNothing(s, n - 1, p);
    }
  }

  /** The rows and the list a prune without failures leaves. */
  ghost function RowsLeft(policy: Policy, rows: Rows, dir: Directory, order: seq<string>): Rows {
    rows - AsSet(Pruned(Smooth(policy), rows, dir, order).removed)
  }

  ghost function OrderLeft(policy: Policy, rows: Rows, dir: Directory, order: seq<string>): seq<string> {
    var fates := Fates(Smooth(policy), rows, dir, order);
    Pick(order, |order|, (k: nat) => fates(k) != Removed)
  }

  /** Pruning again with the same cutoff and window removes nothing and fails nothing. */
  lemma RepeatedPruneRemovesNothing(policy: Policy, rows: Rows, dir: Directory, dir': Directory, order: seq<string>)
    requires Lists(order, rows.Keys)
    ensures var again := Pruned(
              Smooth(policy), RowsLeft(policy, rows, dir, order), dir', OrderLeft(policy, rows, dir, order));
            again.removed == [] && again.failed == []
  {
    var w := Smooth(policy);
    var rows', order' := RowsLeft(policy, rows, dir, order), OrderLeft(policy, rows, dir, order);
    var fates, fates' := Fates(w, rows, dir, order), Fates(w, rows', dir', order');
    forall j | 0 <= j < |order'|
      ensures fates'(j) == Kept || fates'(j) == Evidence
    {
      var k := PickMovesForward(order, |order|, (k: nat) => fates(k) != Removed, j);
      assert order[k] in order;
    }
    PickNothing(order', |order'|, Being(fates', Removed));
    PickNothing(order', |order'|, Being(fates', Failed));
  }
}
