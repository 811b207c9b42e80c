/**
 The bounded search of a configuration tree for a file that still names the
 installed snippet.
*/
module ReferenceWalk {
  import opened Prelude

  const MAX_DEPTH: nat := 6
  const MAX_FILES: nat := 4096
  const MAX_BYTES: nat := 4194304

  /**
   What the walk can see of the tree. `body` is absent when a file cannot be
   read as text; `Other` is anything that is neither file nor directory, links included.
  */
  datatype Node =
    | Dir(readable: bool, entries: seq<Node>)
    | File(path: string, size: nat, body: Option<seq<string>>)
    | Other

  datatype Reference = Reference(path: string, line: nat)

  predicate Contains(line: string, needle: string) {
    needle <= line || (line != [] && Contains(line[1..], needle))
  }

  /** Small enough, and not the snippet itself. */
  predicate Eligible(f: Node, snippet: string)
    requires f.File?
  {
    f.size <= MAX_BYTES && f.path != snippet
  }

  /** The first line of `lines`, numbered from `number`, that names the snippet. */
  function FirstLine(lines: seq<string>, number: nat, snippet: string): Option<nat> {
    if lines == [] then None
    else if Contains(lines[0], snippet) then Some(number)
    else FirstLine(lines[1..], number + 1, snippet)
  }

  function ReferenceIn(f: Node, snippet: string): Option<Reference>
    requires f.File?
  {
    if f.body.None? then None
    else match FirstLine(f.body.value, 1, snippet)
      case None => None
      case Some(line) => Some(Reference(f.path, line))
  }

  type Stack = seq<(Node, nat)>

  datatype Scan = Scan(found: Option<Reference>, stack: Stack, seen: nat)

  /** The loop over one directory's entries. */
  function ScanEntries(entries: seq<Node>, depth: nat, stack: Stack, seen: nat, snippet: string): Scan
    decreases |entries|
  {
    if entries == [] || seen >= MAX_FILES then Scan(None, stack, seen)
    else
      var entry := entries[0];
      match entry
      case Dir(_, _) => ScanEntries(entries[1..], depth, stack + [(entry, depth + 1)], seen, snippet)
      case Other => ScanEntries(entries[1..], depth, stack, seen, snippet)
      case File(_, _, _) =>
        if !Eligible(entry, snippet) then ScanEntries(entries[1..], depth, stack, seen, snippet)
        else if ReferenceIn(entry, snippet).Some? then Scan(ReferenceIn(entry, snippet), stack, seen + 1)
        else ScanEntries(entries[1..], depth, stack, seen + 1, snippet)
  }

  /** How many nodes there are; what the walk consumes. */
  function Size(n: Node): nat
    decreases n, 0
  {
    if n.Dir? then 1 + SizeAll(n.entries) else 1
  }

  function SizeAll(nodes: seq<Node>): nat
    decreases nodes, 1
  {
    if nodes == [] then 0 else Size(nodes[0]) + SizeAll(nodes[1..])
  }

  function StackSize(stack: Stack): nat {
    if stack == [] then 0 else StackSize(stack[..|stack| - 1]) + Size(stack[|stack| - 1].0)
  }

  lemma {:induction false} ScanShrinks(entries: seq<Node>, depth: nat, stack: Stack, seen: nat, snippet: string)
    ensures StackSize(ScanEntries(entries, depth, stack, seen, snippet).stack) <= StackSize(stack) + SizeAll(entries)
    decreases |entries|
  {
    if entries != [] && seen < MAX_FILES {
      var entry := entries[0];
      match entry
      case Dir(_, _) =>
        assert (stack + [(entry, depth + 1)])[..|stack|] == stack;
        ScanShrinks(entries[1..], depth, stack + [(entry, depth + 1)], seen, snippet);
      case Other => ScanShrinks(entries[1..], depth, stack, seen, snippet);
      case File(_, _, _) =>
        ScanShrinks(entries[1..], depth, stack, seen, snippet);
        ScanShrinks(entries[1..], depth, stack, seen + 1, snippet);
    }
  }

  /** The walk from a stack of directories still to visit. One over-deep directory ends it all. */
  function Walk(stack: Stack, seen: nat, snippet: string): Option<Reference>
    decreases StackSize(stack)
  {
    if stack == [] then None
    else
      var (dir, depth) := stack[|stack| - 1];
      var rest := stack[..|stack| - 1];
      if depth > MAX_DEPTH || seen >= MAX_FILES then None
      else if !dir.Dir? || !dir.readable then Walk(rest, seen, snippet)
      else
        var scan := ScanEntries(dir.entries, depth, rest, seen, snippet);
        assert StackSize(scan.stack) < StackSize(stack) by {
          ScanShrinks(dir.entries, depth, rest, seen, snippet);
        }
        if scan.found.Some? then scan.found else Walk(scan.stack, scan.seen, snippet)
  }

  /** The search as the program runs it: a work list, a depth per directory and a file count. */
  method FindReference(root: Node, snippet: string) returns (found: Option<Reference>)
    requires root.Dir?
    ensures found == Walk([(root, 0)], 0, snippet)
  {
    var queue: Stack := [(root, 0)];
    var seen := 0;
    while queue != []
      invariant Walk(queue, seen, snippet) == Walk([(root, 0)], 0, snippet)
      decreases StackSize(queue)
    {
      var (dir, depth) := queue[|queue| - 1];
      ghost var before, seen0 := queue, seen;
      queue := queue[..|queue| - 1];
      if depth > MAX_DEPTH || seen >= MAX_FILES {
        return None;
      }
      if !dir.Dir? || !dir.readable {
        continue;
      }
      ghost var expected := ScanEntries(dir.entries, depth, queue, seen, snippet);
      ScanShrinks(dir.entries, depth, queue, seen, snippet);
      var i := 0;
      while i < |dir.entries| && seen < MAX_FILES
        invariant i <= |dir.entries|
        invariant ScanEntries(dir.entries[i..], depth, queue, seen, snippet) == expected
      {
        var entry := dir.entries[i];
        assert dir.entries[i..][0] == entry && dir.entries[i..][1..] == dir.entries[i + 1..];
        i := i + 1;
        if entry.Dir? {
          queue := queue + [(entry, depth + 1)];
          continue;
        }
        if !entry.File? || !Eligible(entry, snippet) {
          continue;
        }
        seen := seen + 1;
        if ReferenceIn(entry, snippet).Some? {
          return ReferenceIn(entry, snippet);
        }
      }
    }
    return None;
  }

  // ----- what the walk finds ---------------------------------------------------------

  /** Every file the walk may come across below `n`. */
  ghost function Files(n: Node): set<Node>
    decreases n, 0
  {
    match n
    case Dir(readable, entries) => if readable then FilesAll(entries) else {}
    case File(_, _, _) => {n}
    case Other => {}
  }

  ghost function FilesAll(nodes: seq<Node>): set<Node>
    decreases nodes, 1
  {
    if nodes == [] then {} else Files(nodes[0]) + FilesAll(nodes[1..])
  }

  ghost function FilesOnStack(stack: Stack): set<Node> {
    if stack == [] then {} else FilesOnStack(stack[..|stack| - 1]) + Files(stack[|stack| - 1].0)
  }

  /** `f` is a file whose mention of the snippet counts. */
  ghost predicate Names(f: Node, snippet: string) {
    f.File? && Eligible(f, snippet) && ReferenceIn(f, snippet).Some?
  }

  ghost predicate SomeNames(files: set<Node>, snippet: string) {
    exists f :: f in files && Names(f, snippet)
  }

  /** Files counted against the limit. */
  ghost function Count(n: Node, snippet: string): nat
    decreases n, 0
  {
    match n
    case Dir(readable, entries) => if readable then CountAll(entries, snippet) else 0
    case File(_, _, _) => if Eligible(n, snippet) then 1 else 0
    case Other => 0
  }

  ghost function CountAll(nodes: seq<Node>, snippet: string): nat
    decreases nodes, 1
  {
    if nodes == [] then 0 else Count(nodes[0], snippet) + CountAll(nodes[1..], snippet)
  }

  ghost function CountOnStack(stack: Stack, snippet: string): nat {
    if stack == [] then 0 else CountOnStack(stack[..|stack| - 1], snippet) + Count(stack[|stack| - 1].0, snippet)
  }

  /** No directory below `n` lies deeper than `depth` allows. */
  ghost predicate Shallow(n: Node, depth: nat)
    decreases n, 0
  {
    n.Dir? ==> depth <= MAX_DEPTH && (n.readable ==> ShallowAll(n.entries, depth + 1))
  }

  ghost predicate ShallowAll(nodes: seq<Node>, depth: nat)
    decreases nodes, 1
  {
    nodes == [] || (Shallow(nodes[0], depth) && ShallowAll(nodes[1..], depth))
  }

  ghost predicate ShallowStack(stack: Stack) {
    stack == [] || (ShallowStack(stack[..|stack| - 1]) &&
                    stack[|stack| - 1].0.Dir? && Shallow(stack[|stack| - 1].0, stack[|stack| - 1].1))
  }

  /** `r` points at a line of one of `files` that really names the snippet. */
  ghost predicate Genuine(r: Reference, files: set<Node>, snippet: string) {
    exists f :: f in files && PointsInto(r, f, snippet)
  }

  ghost predicate PointsInto(r: Reference, f: Node, snippet: string) {
    && f.File? && Eligible(f, snippet) && f.path == r.path && f.body.Some?
    && 1 <= r.line <= |f.body.value|
    && Contains(f.body.value[r.line - 1], snippet)
  }

  lemma {:induction false} FirstLineIsGenuine(lines: seq<string>, number: nat, snippet: string)
    ensures var line := FirstLine(lines, number, snippet);
            && (line.Some? ==> number <= line.value < number + |lines| && Contains(lines[line.value - number], snippet))
            && (line.None? ==> forall i :: 0 <= i < |lines| ==> !Contains(lines[i], snippet))
    decreases |lines|
  {
    if lines != [] && !Contains(lines[0], snippet) {
      FirstLineIsGenuine(lines[1..], number + 1, snippet);
    }
  }

  lemma NamingIsGenuine(f: Node, snippet: string)
    requires Names(f, snippet)
    ensures PointsInto(ReferenceIn(f, snippet).value, f, snippet)
  {
    FirstLineIsGenuine(f.body.value, 1, snippet);
  }

  datatype Reached = Reached(read: set<Node>, stack: Stack, seen: nat)

  /** What a scan of one directory reads when nothing in it matches, and what it leaves to visit. */
  ghost function ScanReach(entries: seq<Node>, depth: nat, stack: Stack, seen: nat, snippet: string): Reached
    decreases |entries|
  {
    if entries == [] || seen >= MAX_FILES then Reached({}, stack, seen)
    else
      var entry := entries[0];
      match entry
      case Dir(_, _) => ScanReach(entries[1..], depth, stack + [(entry, depth + 1)], seen, snippet)
      case Other => ScanReach(entries[1..], depth, stack, seen, snippet)
      case File(_, _, _) =>
        if !Eligible(entry, snippet) then ScanReach(entries[1..], depth, stack, seen, snippet)
        else
          var later := ScanReach(entries[1..], depth, stack, seen + 1, snippet);
          later.(read := {entry} + later.read)
  }

  /** What a scan owes: a genuine reference among the files it reads, or none of them names the snippet. */
  ghost predicate ScanOwes(scan: Scan, reached: Reached, snippet: string) {
    match scan.found
    case Some(r) => Genuine(r, reached.read, snippet) && SomeNames(reached.read, snippet)
    case None => !SomeNames(reached.read, snippet) && scan.stack == reached.stack && scan.seen == reached.seen
  }

  lemma OwesOneMore(scan: Scan, reached: Reached, f: Node, snippet: string)
    requires ScanOwes(scan, reached, snippet) && !Names(f, snippet)
    ensures ScanOwes(scan, reached.(read := {f} + reached.read), snippet)
  {
    var read := {f} + reached.read;
    if scan.found.Some? {
      var g :| g in reached.read && PointsInto(scan.found.value, g, snippet);
      var h :| h in reached.read && Names(h, snippet);
      assert g in read && h in read;
    }
  }

  lemma {:induction false} ScanReadsItsReach(entries: seq<Node>, depth: nat, stack: Stack, seen: nat, snippet: string)
    ensures ScanOwes(ScanEntries(entries, depth, stack, seen, snippet),
                     ScanReach(entries, depth, stack, seen, snippet), snippet)
    decreases |entries|
  {
    if entries != [] && seen < MAX_FILES {
      var entry, rest := entries[0], entries[1..];
      match entry
      case Dir(_, _) => ScanReadsItsReach(rest, depth, stack + [(entry, depth + 1)], seen, snippet);
      case Other => ScanReadsItsReach(rest, depth, stack, seen, snippet);
      case File(_, _, _) =>
        if Names(entry, snippet) {
          NamingIsGenuine(entry, snippet);
          assert entry in ScanReach(entries, depth, stack, seen, snippet).read;
        } else if Eligible(entry, snippet) {
          ScanReadsItsReach(rest, depth, stack, seen + 1, snippet);
          OwesOneMore(ScanEntries(rest, depth, stack, seen + 1, snippet),
                      ScanReach(rest, depth, stack, seen + 1, snippet), entry, snippet);
        } else {
          ScanReadsItsReach(rest, depth, stack, seen, snippet);
        }
    }
  }

  lemma {:induction false} ReachShrinks(entries: seq<Node>, depth: nat, stack: Stack, seen: nat, snippet: string)
    ensures StackSize(ScanReach(entries, depth, stack, seen, snippet).stack) <= StackSize(stack) + SizeAll(entries)
    decreases |entries|
  {
    if entries != [] && seen < MAX_FILES {
      var entry := entries[0];
      match entry
      case Dir(_, _) =>
        assert (stack + [(entry, depth + 1)])[..|stack|] == stack;
        ReachShrinks(entries[1..], depth, stack + [(entry, depth + 1)], seen, snippet);
      case Other => ReachShrinks(entries[1..], depth, stack, seen, snippet);
      case File(_, _, _) =>
        ReachShrinks(entries[1..], depth, stack, seen, snippet);
        ReachShrinks(entries[1..], depth, stack, seen + 1, snippet);
    }
  }

  /** The eligible files the walk reads when none of them matches, up to where its limits cut it. */
  ghost function Reach(stack: Stack, seen: nat, snippet: string): set<Node>
    decreases StackSize(stack)
  {
    if stack == [] then {}
    else
      var (dir, depth) := stack[|stack| - 1];
      var rest := stack[..|stack| - 1];
      if depth > MAX_DEPTH || seen >= MAX_FILES then {}
      else if !dir.Dir? || !dir.readable then Reach(rest, seen, snippet)
      else
        var reached := ScanReach(dir.entries, depth, rest, seen, snippet);
        assert StackSize(reached.stack) < StackSize(stack) by {
          ReachShrinks(dir.entries, depth, rest, seen, snippet);
        }
        reached.read + Reach(reached.stack, reached.seen, snippet)
  }

  /** What a walk owes about some files: a genuine reference exactly when there is one among them. */
  ghost predicate WalkOwes(found: Option<Reference>, files: set<Node>, snippet: string) {
    && (found.Some? <==> SomeNames(files, snippet))
    && (found.Some? ==> Genuine(found.value, files, snippet))
  }

  lemma Widens(found: Option<Reference>, smaller: set<Node>, larger: set<Node>, snippet: string)
    requires WalkOwes(found, smaller, snippet) && smaller <= larger
    requires SomeNames(larger, snippet) ==> SomeNames(smaller, snippet)
    ensures WalkOwes(found, larger, snippet)
  {
    if found.Some? {
      var f :| f in smaller && PointsInto(found.value, f, snippet);
      var g :| g in smaller && Names(g, snippet);
      assert f in larger && g in larger;
    }
  }

  lemma NamesInUnion(a: set<Node>, b: set<Node>, snippet: string)
    ensures SomeNames(a + b, snippet) <==> SomeNames(a, snippet) || SomeNames(b, snippet)
  {
    if SomeNames(a, snippet) {
      var f :| f in a && Names(f, snippet);
      assert f in a + b;
    }
    if SomeNames(b, snippet) {
      var f :| f in b && Names(f, snippet);
      assert f in a + b;
    }
  }

  /** On any tree whatever, the walk is exact about the files it reaches. */
  lemma {:induction false} WalkIsExact(stack: Stack, seen: nat, snippet: string)
    ensures WalkOwes(Walk(stack, seen, snippet), Reach(stack, seen, snippet), snippet)
    decreases StackSize(stack)
  {
    if stack != [] && stack[|stack| - 1].1 <= MAX_DEPTH && seen < MAX_FILES {
      var (dir, depth) := stack[|stack| - 1];
      var rest := stack[..|stack| - 1];
      if !dir.Dir? || !dir.readable {
        WalkIsExact(rest, seen, snippet);
      } else {
        var scan := ScanEntries(dir.entries, depth, rest, seen, snippet);
        var reached := ScanReach(dir.entries, depth, rest, seen, snippet);
        var later := Reach(reached.stack, reached.seen, snippet);
        ScanReadsItsReach(dir.entries, depth, rest, seen, snippet);
        ScanShrinks(dir.entries, depth, rest, seen, snippet);
        NamesInUnion(reached.read, later, snippet);
        if scan.found.Some? {
          Widens(scan.found, reached.read, reached.read + later, snippet);
        } else {
          WalkIsExact(scan.stack, scan.seen, snippet);
          Widens(Walk(scan.stack, scan.seen, snippet), later, reached.read + later, snippet);
        }
      }
    }
  }

  // ----- how far the walk reaches -------------------------------------------------------

  ghost function EligibleOf(files: set<Node>, snippet: string): set<Node> {
    set f | f in files && f.File? && Eligible(f, snippet)
  }

  lemma FirstEntry(entries: seq<Node>, snippet: string)
    requires entries != []
    ensures EligibleOf(FilesAll(entries), snippet) ==
            EligibleOf(Files(entries[0]), snippet) + EligibleOf(FilesAll(entries[1..]), snippet)
  {
  }

  lemma TopOfStack(stack: Stack, top: (Node, nat), snippet: string)
    ensures EligibleOf(FilesOnStack(stack + [top]), snippet) ==
            EligibleOf(FilesOnStack(stack), snippet) + EligibleOf(Files(top.0), snippet)
    ensures CountOnStack(stack + [top], snippet) == CountOnStack(stack, snippet) + Count(top.0, snippet)
    ensures ShallowStack(stack + [top]) <==> ShallowStack(stack) && top.0.Dir? && Shallow(top.0, top.1)
  {
    assert (stack + [top])[..|stack|] == stack;
  }

  /** The scan of the entries after the first. */
  ghost function ReachAfter(entry: Node, rest: seq<Node>, depth: nat, stack: Stack, seen: nat,
                            snippet: string): Reached
  {
    if entry.Dir? then ScanReach(rest, depth, stack + [(entry, depth + 1)], seen, snippet)
    else ScanReach(rest, depth, stack, seen + Count(entry, snippet), snippet)
  }

  /** What scanning does with its first entry, when nothing matches. */
  lemma ReachFirst(entries: seq<Node>, depth: nat, stack: Stack, seen: nat, snippet: string)
    requires entries != [] && seen < MAX_FILES
    ensures var entry, later := entries[0], ReachAfter(entries[0], entries[1..], depth, stack, seen, snippet);
            ScanReach(entries, depth, stack, seen, snippet) ==
            if entry.Dir? then later else later.(read := EligibleOf(Files(entry), snippet) + later.read)
  {
    var entry, later := entries[0], ReachAfter(entries[0], entries[1..], depth, stack, seen, snippet);
    if !entry.Dir? {
      assert EligibleOf(Files(entry), snippet) == if entry.File? && Eligible(entry, snippet) then {entry} else {};
      assert {} + later.read == later.read;
    }
  }

  /** A directory moved from the entries onto the stack. */
  lemma MovedOver(rest: set<Node>, onStack: set<Node>, top: set<Node>, all: set<Node>)
    requires all == top + rest
    ensures rest + (onStack + top) == all + onStack
  {
  }

  /** An entry read now instead of later. */
  lemma ReadNow(one: set<Node>, read: set<Node>, left: set<Node>, rest: set<Node>, onStack: set<Node>, all: set<Node>)
    requires all == one + rest
    ensures read + left <= rest + onStack ==> one + read + left <= all + onStack
    ensures read + left == rest + onStack ==> one + read + left == all + onStack
  {
  }

  /** Whatever the walk reads is an eligible file of the tree. */
  lemma {:induction false} ScanReachesOnlyFiles(entries: seq<Node>, depth: nat, stack: Stack, seen: nat,
                                                snippet: string)
    ensures var reached := ScanReach(entries, depth, stack, seen, snippet);
            reached.read + EligibleOf(FilesOnStack(reached.stack), snippet) <=
            EligibleOf(FilesAll(entries), snippet) + EligibleOf(FilesOnStack(stack), snippet)
    decreases |entries|
  {
    if entries != [] && seen < MAX_FILES {
      var entry, rest := entries[0], entries[1..];
      var one := EligibleOf(Files(entry), snippet);
      var later := ReachAfter(entry, rest, depth, stack, seen, snippet);
      FirstEntry(entries, snippet);
      ReachFirst(entries, depth, stack, seen, snippet);
      if entry.Dir? {
        TopOfStack(stack, (entry, depth + 1), snippet);
        ScanReachesOnlyFiles(rest, depth, stack + [(entry, depth + 1)], seen, snippet);
        MovedOver(EligibleOf(FilesAll(rest), snippet), EligibleOf(FilesOnStack(stack), snippet), one,
                  EligibleOf(FilesAll(entries), snippet));
      } else {
        ScanReachesOnlyFiles(rest, depth, stack, seen + Count(entry, snippet), snippet);
        ReadNow(one, later.read, EligibleOf(FilesOnStack(later.stack), snippet), EligibleOf(FilesAll(rest), snippet),
                EligibleOf(FilesOnStack(stack), snippet), EligibleOf(FilesAll(entries), snippet));
      }
    }
  }

  lemma {:induction false} ReachIsEligible(stack: Stack, seen: nat, snippet: string)
    ensures Reach(stack, seen, snippet) <= EligibleOf(FilesOnStack(stack), snippet)
    decreases StackSize(stack)
  {
    if stack != [] && stack[|stack| - 1].1 <= MAX_DEPTH && seen < MAX_FILES {
      var (dir, depth) := stack[|stack| - 1];
      var rest := stack[..|stack| - 1];
      if !dir.Dir? || !dir.readable {
        ReachIsEligible(rest, seen, snippet);
      } else {
        var reached := ScanReach(dir.entries, depth, rest, seen, snippet);
        ReachShrinks(dir.entries, depth, rest, seen, snippet);
        ScanReachesOnlyFiles(dir.entries, depth, rest, seen, snippet);
        ReachIsEligible(reached.stack, reached.seen, snippet);
        assert stack == rest + [(dir, depth)];
        TopOfStack(rest, (dir, depth), snippet);
      }
    }
  }

  lemma {:induction false} NoneCounted(n: Node, snippet: string)
    requires Count(n, snippet) == 0
    ensures EligibleOf(Files(n), snippet) == {}
    decreases n, 0
  {
    if n.Dir? && n.readable {
      NoneCountedAll(n.entries, snippet);
    }
  }

  lemma {:induction false} NoneCountedAll(nodes: seq<Node>, snippet: string)
    requires CountAll(nodes, snippet) == 0
    ensures EligibleOf(FilesAll(nodes), snippet) == {}
    decreases nodes, 1
  {
    if nodes != [] {
      NoneCounted(nodes[0], snippet);
      NoneCountedAll(nodes[1..], snippet);
    }
  }

  lemma {:induction false} NoneCountedOnStack(stack: Stack, snippet: string)
    requires CountOnStack(stack, snippet) == 0
    ensures EligibleOf(FilesOnStack(stack), snippet) == {}
  {
    if stack != [] {
      NoneCountedOnStack(stack[..|stack| - 1], snippet);
      NoneCounted(stack[|stack| - 1].0, snippet);
    }
  }

  /** Within the limits a scan leaves a stack that is within them too. */
  lemma {:induction false} ScanStaysWithin(entries: seq<Node>, depth: nat, stack: Stack, seen: nat, snippet: string)
    requires ShallowStack(stack) && ShallowAll(entries, depth + 1)
    requires seen + CountAll(entries, snippet) + CountOnStack(stack, snippet) <= MAX_FILES
    ensures var reached := ScanReach(entries, depth, stack, seen, snippet);
            ShallowStack(reached.stack) && reached.seen + CountOnStack(reached.stack, snippet) <= MAX_FILES
    decreases |entries|
  {
    if entries != [] && seen < MAX_FILES {
      var entry, rest := entries[0], entries[1..];
      ReachFirst(entries, depth, stack, seen, snippet);
      if entry.Dir? {
        TopOfStack(stack, (entry, depth + 1), snippet);
        ScanStaysWithin(rest, depth, stack + [(entry, depth + 1)], seen, snippet);
      } else {
        ScanStaysWithin(rest, depth, stack, seen + Count(entry, snippet), snippet);
      }
    }
  }

  /** And reads, or leaves on it, every eligible file. */
  lemma {:induction false} ScanReadsAll(entries: seq<Node>, depth: nat, stack: Stack, seen: nat, snippet: string)
    requires seen + CountAll(entries, snippet) + CountOnStack(stack, snippet) <= MAX_FILES
    ensures var reached := ScanReach(entries, depth, stack, seen, snippet);
            reached.read + EligibleOf(FilesOnStack(reached.stack), snippet) ==
            EligibleOf(FilesAll(entries), snippet) + EligibleOf(FilesOnStack(stack), snippet)
    decreases |entries|
  {
    if entries == [] {
    } else if seen >= MAX_FILES {
      NoneCountedAll(entries, snippet);
    } else {
      var entry, rest := entries[0], entries[1..];
      var one := EligibleOf(Files(entry), snippet);
      var later := ReachAfter(entry, rest, depth, stack, seen, snippet);
      FirstEntry(entries, snippet);
      ReachFirst(entries, depth, stack, seen, snippet);
      if entry.Dir? {
        TopOfStack(stack, (entry, depth + 1), snippet);
        ScanReadsAll(rest, depth, stack + [(entry, depth + 1)], seen, snippet);
        MovedOver(EligibleOf(FilesAll(rest), snippet), EligibleOf(FilesOnStack(stack), snippet), one,
                  EligibleOf(FilesAll(entries), snippet));
      } else {
        ScanReadsAll(rest, depth, stack, seen + Count(entry, snippet), snippet);
        ReadNow(one, later.read, EligibleOf(FilesOnStack(later.stack), snippet), EligibleOf(FilesAll(rest), snippet),
                EligibleOf(FilesOnStack(stack), snippet), EligibleOf(FilesAll(entries), snippet));
      }
    }
  }

  lemma {:induction false} ReachIsEverything(stack: Stack, seen: nat, snippet: string)
    requires ShallowStack(stack) && seen + CountOnStack(stack, snippet) <= MAX_FILES
    ensures Reach(stack, seen, snippet) == EligibleOf(FilesOnStack(stack), snippet)
    decreases StackSize(stack)
  {
    if stack == [] {
    } else if seen >= MAX_FILES {
      NoneCountedOnStack(stack, snippet);
    } else {
      var (dir, depth) := stack[|stack| - 1];
      var rest := stack[..|stack| - 1];
      assert stack == rest + [(dir, depth)];
      TopOfStack(rest, (dir, depth), snippet);
      if !dir.readable {
        ReachIsEverything(rest, seen, snippet);
      } else {
        var reached := ScanReach(dir.entries, depth, rest, seen, snippet);
        ReachShrinks(dir.entries, depth, rest, seen, snippet);
        ScanStaysWithin(dir.entries, depth, rest, seen, snippet);
        ScanReadsAll(dir.entries, depth, rest, seen, snippet);
        ReachIsEverything(reached.stack, reached.seen, snippet);
      }
    }
  }

  /** The files a search from `root` reads when none of them matches. */
  ghost function ReachOf(root: Node, snippet: string): set<Node> {
    Reach([(root, 0)], 0, snippet)
  }

  lemma OnlyRoot(root: Node, snippet: string)
    ensures FilesOnStack([(root, 0)]) == Files(root)
    ensures CountOnStack([(root, 0)], snippet) == Count(root, snippet)
    ensures ShallowStack([(root, 0)]) <==> root.Dir? && Shallow(root, 0)
  {
    var stack: Stack := [(root, 0)];
    assert stack[..0] == [];
  }

  /**
   The search answers rightly about the whole tree exactly when, should some file
   name the snippet, one it reaches does. Within the depth and file limits it
   reaches every eligible file.
  */
  lemma SearchIsExact(root: Node, snippet: string)
    requires root.Dir?
    ensures var found := Walk([(root, 0)], 0, snippet);
            && WalkOwes(found, ReachOf(root, snippet), snippet)
            && (WalkOwes(found, Files(root), snippet) <==>
                (SomeNames(Files(root), snippet) ==> SomeNames(ReachOf(root, snippet), snippet)))
    ensures Shallow(root, 0) && Count(root, snippet) <= MAX_FILES ==>
              ReachOf(root, snippet) == EligibleOf(Files(root), snippet)
  {
    var found := Walk([(root, 0)], 0, snippet);
    OnlyRoot(root, snippet);
    WalkIsExact([(root, 0)], 0, snippet);
    ReachIsEligible([(root, 0)], 0, snippet);
    if SomeNames(Files(root), snippet) ==> SomeNames(ReachOf(root, snippet), snippet) {
      Widens(found, ReachOf(root, snippet), Files(root), snippet);
    }
    if Shallow(root, 0) && Count(root, snippet) <= MAX_FILES {
      ReachIsEverything([(root, 0)], 0, snippet);
    }
  }

  /** Within the limits, then, the search is right about every file of the tree. */
  lemma SearchWithinLimits(root: Node, snippet: string)
    requires root.Dir? && Shallow(root, 0) && Count(root, snippet) <= MAX_FILES
    ensures WalkOwes(Walk([(root, 0)], 0, snippet), Files(root), snippet)
  {
    SearchIsExact(root, snippet);
    if SomeNames(Files(root), snippet) {
      var f :| f in Files(root) && Names(f, snippet);
      assert f in EligibleOf(Files(root), snippet);
    }
  }

  // ----- where the limit cuts too much -------------------------------------------------

  /** A chain of `k` nested directories and nothing else. */
  function Chain(k: nat): Node {
    Dir(true, if k == 0 then [] else [Chain(k - 1)])
  }

  /** What scanning does with its first entry. */
  lemma ScanFirst(entries: seq<Node>, depth: nat, stack: Stack, seen: nat, snippet: string)
    requires entries != [] && seen < MAX_FILES
    ensures var entry, rest := entries[0], entries[1..];
            ScanEntries(entries, depth, stack, seen, snippet) ==
            if entry.Dir? then ScanEntries(rest, depth, stack + [(entry, depth + 1)], seen, snippet)
            else if Names(entry, snippet) then Scan(ReferenceIn(entry, snippet), stack, seen + 1)
            else ScanEntries(rest, depth, stack, seen + Count(entry, snippet), snippet)
  {
  }

  lemma {:induction false} DeepChainEndsTheWalk(stack: Stack, k: nat, depth: nat, snippet: string)
    requires depth + k > MAX_DEPTH
    ensures Walk(stack + [(Chain(k), depth)], 0, snippet) == None
    decreases k
  {
    var all := stack + [(Chain(k), depth)];
    assert all[..|stack|] == stack;
    if depth <= MAX_DEPTH {
      var entries := Chain(k).entries;
      var pushed := stack + [(Chain(k - 1), depth + 1)];
      assert entries == [Chain(k - 1)] && entries[1..] == [];
      assert ScanEntries(entries[1..], depth, pushed, 0, snippet) == Scan(None, pushed, 0);
      ScanFirst(entries, depth, stack, 0, snippet);
      DeepChainEndsTheWalk(stack, k - 1, depth + 1, snippet);
    }
  }

  /**
   Ending the walk on the first over-deep directory, instead of passing over it,
   can hide a reference beside it: here a file two levels down names the snippet,
   and an empty chain of directories next to it makes the search answer that nothing does.
  */
  lemma OverDeepDirectoryHidesAReference(snippet: string)
    ensures var holder := Dir(true, [File("site.conf", 0, Some([snippet]))]);
            var root := Dir(true, [holder, Chain(6)]);
            && (snippet != "site.conf" ==> SomeNames(Files(root), snippet))
            && Walk([(root, 0)], 0, snippet) == None
  {
    var f := File("site.conf", 0, Some([snippet]));
    var holder := Dir(true, [f]);
    var root := Dir(true, [holder, Chain(6)]);
    assert snippet <= snippet;
    assert Contains(snippet, snippet);
    assert FilesAll([f]) == Files([f][0]) + FilesAll([f][1..]) && f in Files(holder);
    assert FilesAll(root.entries) == Files(root.entries[0]) + FilesAll(root.entries[1..]) && f in Files(root);
    assert snippet != "site.conf" ==> Names(f, snippet);
    var stack: Stack := [(root, 0)];
    assert stack[..0] == [];
    var one, two: Stack := [(holder, 1)], [(holder, 1), (Chain(6), 1)];
    assert [] + [(holder, 1)] == one && one + [(Chain(6), 1)] == two;
    assert root.entries[1..] == [Chain(6)] && root.entries[1..][1..] == [];
    assert ScanEntries([], 0, two, 0, snippet) == Scan(None, two, 0);
    assert ScanEntries([Chain(6)], 0, one, 0, snippet) == Scan(None, two, 0);
    assert ScanEntries(root.entries, 0, [], 0, snippet) == Scan(None, two, 0);
    DeepChainEndsTheWalk(one, 6, 1, snippet);
  }
}
