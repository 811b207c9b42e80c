/**
 The proxy installer as a transaction over three paths of a file system whose
 operations may fail: the snippet's target, its backup and the receipt.
*/
module FileSystem {
  import opened Prelude

  datatype Content = Text(body: string) | Receipt(file: string, backup: Option<string>) | Torn

  type Files = map<string, Content>

  /** A write succeeds, fails without trace, or fails leaving a torn file. */
  datatype WriteFault = Succeeds | FailsClean | FailsTorn

  function Moved(files: Files, from: string, dest: string): Files
    requires from in files
  {
    (files - {from})[dest := files[from]]
  }

  class Disk {
    var files: Files
    /** Every state the disk has been in. */
    ghost var trace: seq<Files>

    constructor (initial: Files)
      ensures files == initial && trace == [initial]
    {
      files := initial;
      trace := [initial];
    }

    method Rename(from: string, dest: string, fails: bool) returns (ok: bool)
      modifies this
      ensures ok <==> !fails && from in old(files)
      ensures files == if ok then Moved(old(files), from, dest) else old(files)
      ensures trace == old(trace) + [files]
    {
      ok := !fails && from in files;
      if ok {
        files := Moved(files, from, dest);
      }
      trace := trace + [files];
    }

    /** Creates a file that must not exist yet, and writes it. */
    method CreateNew(path: string, content: Content, fault: WriteFault) returns (ok: bool)
      modifies this
      ensures ok <==> path !in old(files) && fault.Succeeds?
      ensures files == if path in old(files) || fault.FailsClean? then old(files)
                       else old(files)[path := if fault.Succeeds? then content else Torn]
      ensures trace == old(trace) + [files]
    {
      ok := path !in files && fault.Succeeds?;
      if path !in files && !fault.FailsClean? {
        files := files[path := if fault.Succeeds? then content else Torn];
      }
      trace := trace + [files];
    }

    /** Writes a file, replacing whatever was there. */
    method Write(path: string, content: Content, fault: WriteFault) returns (ok: bool)
      modifies this
      ensures ok <==> fault.Succeeds?
      ensures files == if fault.FailsClean? then old(files)
                       else old(files)[path := if fault.Succeeds? then content else Torn]
      ensures trace == old(trace) + [files]
    {
      ok := fault.Succeeds?;
      if !fault.FailsClean? {
        files := files[path := if fault.Succeeds? then content else Torn];
      }
      trace := trace + [files];
    }

    method Remove(path: string, fails: bool) returns (ok: bool)
      modifies this
      ensures ok <==> !fails && path in old(files)
      ensures files == if fails then old(files) else old(files) - {path}
      ensures trace == old(trace) + [files]
    {
      ok := !fails && path in files;
      if !fails {
        files := files - {path};
      }
      trace := trace + [files];
    }
  }
}

module Proxy {
  import opened Prelude
  import opened FileSystem
  import opened ReferenceWalk

  /** The backup suffix and the state directory keep the three paths apart. */
  datatype Paths = Paths(target: string, backup: string, receipt: string) {
    predicate Apart() {
      target != backup && target != receipt && backup != receipt
    }
  }

  datatype Validation = Passed | Rejected | Unavailable

  /** What goes wrong, step by step. */
  datatype Faults = Faults(
    moveAside: bool, write: WriteFault, receipt: WriteFault,
    undoRemove: bool, undoRename: bool, receiptRemove: bool)

  const NO_FAULTS: Faults := Faults(false, Succeeds, Succeeds, false, false, false)

  datatype Outcome = Applied | Refused | Failed | RolledBack

  /** Remove what was made, put back what was moved; each half best effort. */
  method UndoFiles(disk: Disk, target: string, backup: Option<string>, f: Faults)
    modifies disk
    ensures disk.files == Undone(old(disk.files), target, backup, f)
    ensures |disk.trace| >= |old(disk.trace)| && disk.trace[..|old(disk.trace)|] == old(disk.trace)
    ensures forall i :: |old(disk.trace)| <= i < |disk.trace| ==>
              disk.trace[i] == Removed(old(disk.files), target, f) || disk.trace[i] == disk.files
  {
    var _ := disk.Remove(target, f.undoRemove);
    Restore(disk, target, backup, f);
  }

  method Restore(disk: Disk, target: string, backup: Option<string>, f: Faults)
    modifies disk
    ensures disk.files == Restored(old(disk.files), target, backup, f)
    ensures disk.trace == old(disk.trace) || disk.trace == old(disk.trace) + [disk.files]
    ensures disk.trace == old(disk.trace) ==> disk.files == old(disk.files)
  {
    if backup.Some? {
      var _ := disk.Rename(backup.value, target, f.undoRename);
    }
  }

  function Removed(files: Files, target: string, f: Faults): Files {
    if f.undoRemove then files else files - {target}
  }

  function Restored(files: Files, target: string, backup: Option<string>, f: Faults): Files {
    if backup.Some? && !f.undoRename && backup.value in files then Moved(files, backup.value, target) else files
  }

  function Undone(files: Files, target: string, backup: Option<string>, f: Faults): Files {
    Restored(Removed(files, target, f), target, backup, f)
  }

  /** Whether `apply` gets as far as touching anything. */
  predicate Proceeds(files: Files, p: Paths, confirm: bool, f: Faults) {
    confirm && p.receipt !in files && (p.target in files ==> p.backup !in files && !f.moveAside)
  }

  /** Where the previous file at the target goes, when there is one. */
  function BackupOf(files: Files, p: Paths): Option<string> {
    if p.target in files then Some(p.backup) else None
  }

  /** The disk once the target has been moved aside. */
  function Aside(files: Files, p: Paths): Files {
    if p.target in files then Moved(files, p.target, p.backup) else files
  }

  /** What the receipt step has put on disk, or the disk before it. */
  function Written(files: Files, path: string, content: Content, fault: WriteFault): Files {
    match fault
    case Succeeds => files[path := content]
    case FailsClean => files
    case FailsTorn => files[path := Torn]
  }

  /** The disk and outcome of recording and checking an installed snippet. */
  function RecordResult(installed: Files, p: Paths, backup: Option<string>, validation: Validation, f: Faults)
    : (Files, Outcome)
  {
    var recorded := Written(installed, p.receipt, Receipt(p.target, backup), f.receipt);
    var undone := Undone(recorded, p.target, backup, f);
    if !f.receipt.Succeeds? then (undone, Failed)
    else if validation.Rejected? then (if f.receiptRemove then undone else undone - {p.receipt}, Refused)
    else (recorded, Applied)
  }

  /** The disk and outcome of writing, recording and checking the snippet on a free target. */
  function InstallResult(files: Files, p: Paths, body: string, backup: Option<string>, validation: Validation,
                         f: Faults)
    : (Files, Outcome)
  {
    var installed := Written(files, p.target, Text(body), f.write);
    if !f.write.Succeeds? then (Restored(installed, p.target, backup, f), Failed)
    else RecordResult(installed, p, backup, validation, f)
  }

  /** The disk and outcome of a whole `apply`. */
  function ApplyResult(files: Files, p: Paths, body: string, confirm: bool, validation: Validation, f: Faults)
    : (Files, Outcome)
  {
    if !confirm || p.receipt in files then (files, Refused)
    else if !Proceeds(files, p, confirm, f) then (files, Failed)
    else InstallResult(Aside(files, p), p, body, BackupOf(files, p), validation, f)
  }

  predicate Holds(files: Files, path: string, content: Content) {
    path in files && files[path] == content
  }

  /** What was at the target or the backup is still at one of them, and nothing else but the receipt is touched. */
  ghost predicate Keeps(before: Files, now: Files, p: Paths) {
    && (p.target in before ==> Holds(now, p.target, before[p.target]) || Holds(now, p.backup, before[p.target]))
    && (p.backup in before ==> p.backup in now && now[p.backup] == before[p.backup])
    && (forall q :: q !in {p.target, p.backup, p.receipt} ==>
          (q in before <==> q in now) && (q in before ==> before[q] == now[q]))
  }

  /** Every state the disk has passed through since `trace` kept what was there. */
  ghost predicate KeptSince(before: Files, trace: seq<Files>, longer: seq<Files>, p: Paths) {
    trace <= longer && forall i :: |trace| <= i < |longer| ==> Keeps(before, longer[i], p)
  }

  lemma KeptOneMore(before: Files, trace: seq<Files>, now: Files, p: Paths)
    requires Keeps(before, now, p)
    ensures KeptSince(before, trace, trace + [now], p)
  {
  }

  lemma KeptOn(before: Files, a: seq<Files>, b: seq<Files>, c: seq<Files>, p: Paths)
    requires KeptSince(before, a, b, p) && KeptSince(before, b, c, p)
    ensures KeptSince(before, a, c, p)
  {
    forall i | |a| <= i < |c|
      ensures Keeps(before, c[i], p)
    {
      if i < |b| {
        assert c[i] == b[i];
      }
    }
  }

  /** Undoing an installation, step by step: at no point is the displaced file nowhere. */
  lemma UndoKeeps(before: Files, installed: Files, p: Paths, f: Faults)
    requires p.Apart() && Keeps(before, installed, p)
    requires p.target in before ==> p.backup !in before && Holds(installed, p.backup, before[p.target])
    ensures Keeps(before, Removed(installed, p.target, f), p)
    ensures Keeps(before, Restored(installed, p.target, BackupOf(before, p), f), p)
    ensures Keeps(before, Undone(installed, p.target, BackupOf(before, p), f), p)
  {
  }

  /** The displaced file, if any, is safe at the backup path. */
  ghost predicate Displaced(before: Files, now: Files, p: Paths) {
    && p.Apart() && Keeps(before, now, p)
    && (p.target in before ==> p.backup !in before && Holds(now, p.backup, before[p.target]))
  }

  /** Writing at a free target or at the receipt leaves the displaced file where it is. */
  lemma WritingKeepsDisplaced(before: Files, now: Files, p: Paths, path: string, content: Content, fault: WriteFault)
    requires Displaced(before, now, p)
    requires (path == p.target && p.target !in now) || path == p.receipt
    ensures Displaced(before, Written(now, path, content, fault), p)
  {
  }

  method Retreat(disk: Disk, p: Paths, backup: Option<string>, f: Faults, ghost before: Files)
    requires Displaced(before, disk.files, p) && backup == BackupOf(before, p)
    modifies disk
    ensures disk.files == Undone(old(disk.files), p.target, backup, f) && Keeps(before, disk.files, p)
    ensures KeptSince(before, old(disk.trace), disk.trace, p)
  {
    UndoKeeps(before, disk.files, p, f);
    UndoFiles(disk, p.target, backup, f);
  }

  method PutBack(disk: Disk, p: Paths, backup: Option<string>, f: Faults, ghost before: Files)
    requires Displaced(before, disk.files, p) && backup == BackupOf(before, p)
    modifies disk
    ensures disk.files == Restored(old(disk.files), p.target, backup, f) && Keeps(before, disk.files, p)
    ensures KeptSince(before, old(disk.trace), disk.trace, p)
  {
    UndoKeeps(before, disk.files, p, f);
    Restore(disk, p.target, backup, f);
  }

  /** Undoes a rejected installation and drops its receipt. */
  method Discard(disk: Disk, p: Paths, backup: Option<string>, f: Faults, ghost before: Files)
    requires Displaced(before, disk.files, p) && backup == BackupOf(before, p) && p.receipt !in before
    modifies disk
    ensures var undone := Undone(old(disk.files), p.target, backup, f);
            disk.files == if f.receiptRemove then undone else undone - {p.receipt}
    ensures KeptSince(before, old(disk.trace), disk.trace, p)
  {
    ghost var start := disk.trace;
    Retreat(disk, p, backup, f, before);
    ghost var undone := disk.trace;
    var _ := disk.Remove(p.receipt, f.receiptRemove);
    KeptOneMore(before, undone, disk.files, p);
    KeptOn(before, start, undone, disk.trace, p);
  }

  /** The second half of `apply`, on a free target: write, record, check, and undo on any failure. */
  method Install(disk: Disk, p: Paths, body: string, backup: Option<string>, validation: Validation, f: Faults,
                 ghost before: Files)
    returns (outcome: Outcome)
    requires Displaced(before, disk.files, p) && backup == BackupOf(before, p)
    requires p.target !in disk.files && p.receipt !in before
    modifies disk
    ensures (disk.files, outcome) == InstallResult(old(disk.files), p, body, backup, validation, f)
    ensures KeptSince(before, old(disk.trace), disk.trace, p)
  {
    ghost var start := disk.trace;
    WritingKeepsDisplaced(before, disk.files, p, p.target, Text(body), f.write);
    var written := disk.CreateNew(p.target, Text(body), f.write);
    ghost var next := disk.trace;
    KeptOneMore(before, start, disk.files, p);
    if written {
      outcome := RecordAndCheck(disk, p, backup, validation, f, before);
    } else {
      PutBack(disk, p, backup, f, before);
      outcome := Failed;
    }
    KeptOn(before, start, next, disk.trace, p);
  }

  method RecordAndCheck(disk: Disk, p: Paths, backup: Option<string>, validation: Validation, f: Faults,
                        ghost before: Files)
    returns (outcome: Outcome)
    requires Displaced(before, disk.files, p) && backup == BackupOf(before, p) && p.receipt !in before
    modifies disk
    ensures (disk.files, outcome) == RecordResult(old(disk.files), p, backup, validation, f)
    ensures KeptSince(before, old(disk.trace), disk.trace, p)
  {
    ghost var start := disk.trace;
    WritingKeepsDisplaced(before, disk.files, p, p.receipt, Receipt(p.target, backup), f.receipt);
    var recorded := disk.Write(p.receipt, Receipt(p.target, backup), f.receipt);
    ghost var next := disk.trace;
    KeptOneMore(before, start, disk.files, p);
    if !recorded {
      Retreat(disk, p, backup, f, before);
      outcome := Failed;
    } else if validation.Rejected? {
      Discard(disk, p, backup, f, before);
      outcome := Refused;
    } else {
      outcome := Applied;
    }
    KeptOn(before, start, next, disk.trace, p);
  }

  /** Writes the snippet, records it and checks it; undoes everything when any of that fails. */
  method Apply(disk: Disk, p: Paths, body: string, confirm: bool, validation: Validation, f: Faults)
    returns (outcome: Outcome)
    requires p.Apart()
    modifies disk
    ensures (disk.files, outcome) == ApplyResult(old(disk.files), p, body, confirm, validation, f)
    ensures KeptSince(old(disk.files), old(disk.trace), disk.trace, p)
  {
    if !confirm {
      return Refused;
    }
    if p.receipt in disk.files {
      return Refused;
    }
    var backup := None;
    ghost var before := disk.files;
    if p.target in disk.files {
      if p.backup in disk.files {
        return Failed;
      }
      var moved := disk.Rename(p.target, p.backup, f.moveAside);
      if !moved {
        return Failed;
      }
      backup := Some(p.backup);
    }
    assert Displaced(before, disk.files, p);
    outcome := Install(disk, p, body, backup, validation, f, before);
  }

  function RollbackResult(files: Files, receipt: string, confirm: bool, force: bool, found: Option<Reference>,
                          f: Faults)
    : (Files, Outcome)
  {
    if receipt !in files then (files, Refused)
    else if !files[receipt].Receipt? then (files, Failed)
    else if !confirm || (!force && found.Some?) then (files, Refused)
    else
      var undone := Undone(files, files[receipt].file, files[receipt].backup, f);
      if f.receiptRemove || receipt !in undone then (undone, Failed) else (undone - {receipt}, RolledBack)
  }

  /** Removes what `apply` recorded creating, unless something still refers to it. */
  method Rollback(disk: Disk, receipt: string, tree: Node, confirm: bool, force: bool, f: Faults)
    returns (outcome: Outcome, ghost found: Option<Reference>)
    requires tree.Dir?
    modifies disk
    ensures receipt in old(disk.files) && old(disk.files)[receipt].Receipt? ==>
              found == Walk([(tree, 0)], 0, old(disk.files)[receipt].file)
    ensures (disk.files, outcome) == RollbackResult(old(disk.files), receipt, confirm, force, found, f)
  {
    found := None;
    if receipt !in disk.files {
      return Refused, found;
    }
    var content := disk.files[receipt];
    if !content.Receipt? {
      return Failed, found;
    }
    found := Walk([(tree, 0)], 0, content.file);
    if !confirm {
      return Refused, found;
    }
    if !force {
      var reference := FindReference(tree, content.file);
      if reference.Some? {
        return Refused, found;
      }
    }
    UndoFiles(disk, content.file, content.backup, f);
    ghost var undone := disk.files;
    var removed := disk.Remove(receipt, f.receiptRemove);
    assert receipt !in undone ==> undone - {receipt} == undone;
    outcome := if removed then RolledBack else Failed;
  }

  // ----- the transaction ---------------------------------------------------------------

  /**
   The faults after which a failed or rejected `apply` cannot leave the disk as
   it was: a torn snippet with nothing to move back over it, a torn receipt, or
   an undo step that itself fails.
  */
  predicate LeavesResidue(files: Files, p: Paths, confirm: bool, f: Faults) {
    Proceeds(files, p, confirm, f) &&
    var displaced := p.target in files;
    match f.write
    case FailsClean => displaced && f.undoRename
    case FailsTorn => !displaced || f.undoRename
    case Succeeds =>
      || f.receipt.FailsTorn?
      || (if displaced then f.undoRename else f.undoRemove)
      || (f.receipt.Succeeds? && f.receiptRemove)
  }

  /** An `apply` that does not succeed leaves every file as it was, exactly when none of those faults occurs. */
  lemma FailedApplyIsUndone(files: Files, p: Paths, body: string, confirm: bool, validation: Validation, f: Faults)
    requires p.Apart()
    requires ApplyResult(files, p, body, confirm, validation, f).1 != Applied
    ensures ApplyResult(files, p, body, confirm, validation, f).0 == files <==> !LeavesResidue(files, p, confirm, f)
  {
    var after := ApplyResult(files, p, body, confirm, validation, f).0;
    if Proceeds(files, p, confirm, f) {
      if p.target in files {
        assert Moved(Aside(files, p), p.backup, p.target) == files;
      } else {
        assert Aside(files, p) == files;
      }
    }
  }

  /**
   After a successful `apply`, a confirmed and unobstructed rollback is its inverse,
   exactly when nothing in it fails.
  */
  lemma RollbackInvertsApply(files: Files, p: Paths, body: string, validation: Validation, f: Faults,
                             force: bool, found: Option<Reference>, g: Faults)
    requires p.Apart() && (force || found.None?)
    requires ApplyResult(files, p, body, true, validation, f).1 == Applied
    ensures var installed := ApplyResult(files, p, body, true, validation, f).0;
            var (after, outcome) := RollbackResult(installed, p.receipt, true, force, found, g);
            && installed[p.target] == Text(body)
            && (p.target in files ==> Holds(installed, p.backup, files[p.target]))
            && (outcome == RolledBack <==> !g.receiptRemove)
            && (after == files <==> !g.receiptRemove && !(if p.target in files then g.undoRename else g.undoRemove))
  {
    var installed := ApplyResult(files, p, body, true, validation, f).0;
    var after := RollbackResult(installed, p.receipt, true, force, found, g).0;
    if p.target in files {
      assert !g.receiptRemove && !g.undoRename ==> after == files;
    } else {
      assert !g.receiptRemove && !g.undoRemove ==> after == files;
    }
    assert g.receiptRemove ==> p.receipt in after;
  }

  /** The disk a successful `apply` leaves. */
  function Installed(files: Files, p: Paths, body: string): Files {
    Aside(files, p)[p.target := Text(body)][p.receipt := Receipt(p.target, BackupOf(files, p))]
  }

  lemma AppliedMeansInstalled(files: Files, p: Paths, body: string, validation: Validation, f: Faults)
    requires ApplyResult(files, p, body, true, validation, f).1 == Applied
    ensures ApplyResult(files, p, body, true, validation, f).0 == Installed(files, p, body)
    ensures p.receipt !in files && (p.target in files ==> p.backup !in files)
  {
  }

  /** What a rollback leaves that could not delete its receipt. */
  function Stuck(files: Files, p: Paths, body: string, g: Faults): Files {
    Undone(Installed(files, p, body), p.target, BackupOf(files, p), g)
  }

  lemma RetryOnFreePath(files: Files, p: Paths, body: string, g: Faults)
    requires p.Apart() && p.receipt !in files && p.target !in files
    ensures Undone(Stuck(files, p, body, g), p.target, None, NO_FAULTS) - {p.receipt} == files
  {
  }

  lemma RetryAfterDisplacing(files: Files, p: Paths, body: string, g: Faults)
    requires p.Apart() && p.receipt !in files && p.target in files && p.backup !in files
    ensures Undone(Stuck(files, p, body, g), p.target, Some(p.backup), NO_FAULTS) - {p.receipt} ==
            if g.undoRename then files else files - {p.target}
  {
  }

  lemma StuckKeepsReceipt(files: Files, p: Paths, body: string, g: Faults)
    requires p.Apart()
    ensures Holds(Stuck(files, p, body, g), p.receipt, Receipt(p.target, BackupOf(files, p)))
    ensures p.receipt in Undone(Stuck(files, p, body, g), p.target, BackupOf(files, p), NO_FAULTS)
  {
  }

  /**
   A rollback that could not delete its receipt and is run again undoes twice: the
   second pass takes the operator's restored file for the snippet. Retrying is
   harmless exactly when nothing had been displaced or the first pass did not
   manage to restore it, whatever else went wrong in that pass.
  */
  lemma RetriedRollback(files: Files, p: Paths, body: string, validation: Validation, f: Faults, g: Faults)
    requires p.Apart() && g.receiptRemove
    requires ApplyResult(files, p, body, true, validation, f).1 == Applied
    ensures var installed := ApplyResult(files, p, body, true, validation, f).0;
            var stuck := RollbackResult(installed, p.receipt, true, true, None, g);
            var again := RollbackResult(stuck.0, p.receipt, true, true, None, NO_FAULTS);
            && stuck.1 == Failed && again.1 == RolledBack
            && (again.0 == files <==> p.target !in files || g.undoRename)
            && again.0 == (if p.target !in files || g.undoRename then files else files - {p.target})
  {
    AppliedMeansInstalled(files, p, body, validation, f);
    StuckKeepsReceipt(files, p, body, g);
    if p.target in files {
      RetryAfterDisplacing(files, p, body, g);
    } else {
      RetryOnFreePath(files, p, body, g);
    }
  }

  /**
   On any tree, an unforced rollback leaves the disk alone when a file the search
   reaches names the snippet, and otherwise, once confirmed, does what a forced one does.
  */
  lemma ReferencedSnippetStays(files: Files, receipt: string, tree: Node, confirm: bool, f: Faults)
    requires receipt in files && files[receipt].Receipt? && tree.Dir?
    ensures var snippet := files[receipt].file;
            var found := Walk([(tree, 0)], 0, snippet);
            var result := RollbackResult(files, receipt, confirm, false, found, f);
            if SomeNames(ReachOf(tree, snippet), snippet) then result == (files, Refused)
            else result == RollbackResult(files, receipt, confirm, true, found, f)
  {
    SearchIsExact(tree, files[receipt].file);
  }

  /** Within the search's limits that is every eligible file of the tree. */
  lemma EveryReferenceCounts(files: Files, receipt: string, tree: Node, confirm: bool, f: Faults)
    requires receipt in files && files[receipt].Receipt?
    requires tree.Dir? && Shallow(tree, 0) && Count(tree, files[receipt].file) <= MAX_FILES
    requires SomeNames(ReferenceWalk.Files(tree), files[receipt].file)
    ensures RollbackResult(files, receipt, confirm, false, Walk([(tree, 0)], 0, files[receipt].file), f) ==
            (files, Refused)
  {
    SearchWithinLimits(tree, files[receipt].file);
  }
}
