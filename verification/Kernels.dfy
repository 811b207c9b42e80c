/** The memory kernels over one thread's working set, and what a timed stretch of them computes. */
module Kernels {
  import opened Prelude
  import opened PointerChase

  const LATENCY_STEPS_PER_PASS: nat := 65536
  const TRIAD_SCALAR: nat := 3
  const WORD: nat := 0x1_0000_0000_0000_0000

  datatype Access =
    | SequentialRead | SequentialWrite | SequentialCopy | Triad | RandomRead | CacheRead | LatencyRandom

  /** The working set as values. */
  datatype Buffers = Buffers(a: seq<nat>, b: seq<nat>, c: seq<nat>, permutation: seq<nat>, cursor: nat)

  /** What each pattern needs to have been prepared. */
  ghost predicate Ready(access: Access, s: Buffers) {
    match access
    case SequentialRead => true
    case CacheRead => true
    case SequentialWrite => |s.a| > 0
    case SequentialCopy => |s.a| == |s.b| > 0
    case Triad => |s.a| == |s.b| == |s.c| > 0
    case RandomRead => |s.permutation| == |s.a| && SingleCycle(s.permutation)
    case LatencyRandom => SingleCycle(s.permutation) && (s.permutation == [] || s.cursor < |s.permutation|)
  }

  function TriadOf(b: seq<nat>, c: seq<nat>): seq<nat>
    requires |b| == |c|
  {
    seq(|b|, i requires 0 <= i < |b| => (b[i] + TRIAD_SCALAR * c[i] % WORD) % WORD)
  }

  /** `pass | 1` */
  function Odd(pass: nat): nat {
    if pass % 2 == 0 then pass + 1 else pass
  }

  /** One pass: the working set it leaves and the value it adds to the accumulator. */
  ghost function Pass(access: Access, s: Buffers, pass: nat): (Buffers, nat)
    requires Ready(access, s)
  {
    match access
    case SequentialRead => (s, Sum(s.a) % WORD)
    case CacheRead => (s, Sum(s.a) % WORD)
    case SequentialWrite => (s.(a := seq(|s.a|, _ => Odd(pass))), Odd(pass))
    case SequentialCopy => (s.(a := s.b), s.b[0])
    case Triad => (s.(a := TriadOf(s.b, s.c)), TriadOf(s.b, s.c)[0])
    case RandomRead => (s, SumThrough(s.a, s.permutation) % WORD)
    case LatencyRandom =>
      if s.permutation == [] then (s, 0)
      else
        var at := Chase(s.permutation, s.cursor, LATENCY_STEPS_PER_PASS);
        (s.(cursor := at), at)
  }

  /** The working set and accumulator after `passes` passes. */
  ghost function Passes(access: Access, s: Buffers, passes: nat): (r: (Buffers, nat))
    requires Ready(access, s)
    ensures Ready(access, r.0)
  {
    if passes == 0 then (s, 0)
    else
      var (t, acc) := Passes(access, s, passes - 1);
      var (u, add) := Pass(access, t, passes - 1);
      (u, (acc + add) % WORD)
  }

  lemma OneMorePass(access: Access, s: Buffers, passes: nat)
    requires Ready(access, s)
    ensures var (t, acc) := Passes(access, s, passes);
            var (u, add) := Pass(access, t, passes);
            Passes(access, s, passes + 1) == (u, (acc + add) % WORD)
  {
  }

  class WorkingSet {
    var a: array<nat>
    var b: array<nat>
    var c: array<nat>
    var permutation: array<nat>
    var cursor: nat

    ghost function Model(): Buffers
      reads this, a, b, c, permutation
    {
      Buffers(a[..], b[..], c[..], permutation[..], cursor)
    }

    /** The four buffers are separate allocations. */
    ghost predicate Valid()
      reads this
    {
      a != b && a != c && a != permutation && b != c && b != permutation && c != permutation
    }

    /** Allocates and first-touches what `access` streams. */
    constructor Prepare(access: Access, bytes: nat, draw: nat -> nat)
      requires PermutationEntries(access, bytes) < U32_SIZE
      ensures Valid() && fresh(a) && fresh(b) && fresh(c) && fresh(permutation)
      ensures Ready(access, Model()) && cursor == 0
      ensures a.Length == (if Payloads(access) >= 1 then Elements(bytes) else 0)
      ensures b.Length == (if Payloads(access) >= 2 then Elements(bytes) else 0)
      ensures c.Length == (if Payloads(access) >= 3 then Elements(bytes) else 0)
      ensures permutation.Length == PermutationEntries(access, bytes)
      ensures (forall i :: 0 <= i < a.Length ==> a[i] == 1)
      ensures (forall i :: 0 <= i < b.Length ==> b[i] == 2)
      ensures (forall i :: 0 <= i < c.Length ==> c[i] == 3)
    {
      a := new nat[if Payloads(access) >= 1 then Elements(bytes) else 0](_ => 1);
      b := new nat[if Payloads(access) >= 2 then Elements(bytes) else 0](_ => 2);
      c := new nat[if Payloads(access) >= 3 then Elements(bytes) else 0](_ => 3);
      permutation := new nat[0](_ => 0);
      cursor := 0;
      new;
      assert SingleCycle(permutation[..]);
      if PermutationEntries(access, bytes) > 0 {
        permutation := Permutation(PermutationEntries(access, bytes), draw);
      }
    }

    method Execute(access: Access, passes: nat) returns (acc: nat)
      requires Valid() && Ready(access, Model())
      modifies this`cursor, a
      ensures Valid()
      ensures (Model(), acc) == Passes(access, old(Model()), passes)
    {
      acc := 0;
      for pass := 0 to passes
        invariant Valid() && Ready(access, Model())
        invariant (Model(), acc) == Passes(access, old(Model()), pass)
      {
        OneMorePass(access, old(Model()), pass);
        var add := OnePass(access, pass);
        acc := (acc + add) % WORD;
      }
    }

    method OnePass(access: Access, pass: nat) returns (add: nat)
      requires Valid() && Ready(access, Model())
      modifies this`cursor, a
      ensures Valid()
      ensures (Model(), add) == Pass(access, old(Model()), pass)
    {
      match access {
        case SequentialRead => add := Scan();
        case CacheRead => add := Scan();
        case SequentialWrite => add := Write(pass);
        case SequentialCopy => add := Copy();
        case Triad => add := RunTriad();
        case RandomRead => add := Gather();
        case LatencyRandom => add := Latency();
      }
    }

    method Scan() returns (sum: nat)
      ensures sum == Sum(a[..]) % WORD
    {
      sum := 0;
      for i := 0 to a.Length
        invariant sum == Sum(a[..i]) % WORD
      {
        assert a[..i + 1][..i] == a[..i];
        sum := (sum + a[i]) % WORD;
      }
      assert a[..a.Length] == a[..];
    }

    method Write(pass: nat) returns (first: nat)
      requires Valid() && a.Length > 0
      modifies a
      ensures Model() == old(Model()).(a := seq(a.Length, _ => Odd(pass))) && first == Odd(pass)
    {
      var value := Odd(pass);
      for i := 0 to a.Length
        invariant forall k :: 0 <= k < i ==> a[k] == value
      {
        a[i] := value;
      }
      assert a[..] == seq(a.Length, _ => Odd(pass));
      first := a[0];
    }

    method Copy() returns (first: nat)
      requires Valid() && a.Length == b.Length > 0
      modifies a
      ensures Model() == old(Model()).(a := b[..]) && first == b[0]
    {
      forall i | 0 <= i < a.Length {
        a[i] := b[i];
      }
      assert a[..] == b[..];
      first := a[0];
    }

    method RunTriad() returns (first: nat)
      requires Valid() && a.Length == b.Length == c.Length > 0
      modifies a
      ensures Model() == old(Model()).(a := TriadOf(b[..], c[..])) && first == TriadOf(b[..], c[..])[0]
    {
      ghost var triad := TriadOf(b[..], c[..]);
      for i := 0 to a.Length
        invariant forall k :: 0 <= k < i ==> a[k] == triad[k]
      {
        a[i] := (b[i] + TRIAD_SCALAR * c[i] % WORD) % WORD;
      }
      assert a[..] == triad;
      first := a[0];
    }

    method Gather() returns (sum: nat)
      requires permutation.Length == a.Length && SingleCycle(permutation[..])
      ensures sum == SumThrough(a[..], permutation[..]) % WORD
    {
      sum := 0;
      for i := 0 to permutation.Length
        invariant sum == SumThrough(a[..], permutation[..i]) % WORD
      {
        assert permutation[..i + 1][..i] == permutation[..i];
        assert permutation[i] == permutation[..][i] < a.Length;
        sum := (sum + a[permutation[i]]) % WORD;
      }
      assert permutation[..permutation.Length] == permutation[..];
    }

    method Latency() returns (add: nat)
      requires Valid() && Ready(LatencyRandom, Model())
      modifies this`cursor
      ensures (Model(), add) == Pass(LatencyRandom, old(Model()), 0)
    {
      if permutation.Length == 0 {
        return 0;
      }
      var at := cursor;
      ghost var next := permutation[..];
      for k := 0 to LATENCY_STEPS_PER_PASS
        invariant at == Chase(next, cursor, k)
      {
        assert permutation[at] == next[at];
        at := permutation[at];
      }
      cursor := at;
      add := at;
    }
  }

  const ELEM: nat := 8
  const INDEX_BYTES: nat := 4

  function Elements(bytes: nat): nat {
    Max(bytes / ELEM, 1)
  }

  /** Payload buffers a pattern needs live at once. */
  function Payloads(access: Access): nat {
    match access
    case LatencyRandom => 0
    case SequentialCopy => 2
    case Triad => 3
    case _ => 1
  }

  function PermutationEntries(access: Access, bytes: nat): nat {
    match access
    case LatencyRandom => Max(bytes / INDEX_BYTES, 1)
    case RandomRead => Max(bytes / ELEM, 1)
    case _ => 0
  }

  // ----- what a timed stretch computes -------------------------------------------------

  /** The working set with the chase `loads` further on. */
  ghost function Advanced(s: Buffers, loads: nat): Buffers
    requires Ready(LatencyRandom, s) && s.permutation != []
  {
    s.(cursor := Chase(s.permutation, s.cursor, loads))
  }

  lemma AdvancesJoin(s: Buffers, j: nat, k: nat)
    requires Ready(LatencyRandom, s) && s.permutation != []
    ensures Ready(LatencyRandom, Advanced(s, j)) && Advanced(Advanced(s, j), k) == Advanced(s, j + k)
  {
    ChaseComposes(s.permutation, s.cursor, j, k);
  }

  lemma OnePassAdvances(s: Buffers, before: nat, pass: nat)
    requires Ready(LatencyRandom, s) && s.permutation != []
    ensures Ready(LatencyRandom, Advanced(s, before))
    ensures Pass(LatencyRandom, Advanced(s, before), pass).0 == Advanced(s, before + LATENCY_STEPS_PER_PASS)
  {
    AdvancesJoin(s, before, LATENCY_STEPS_PER_PASS);
  }

  /** Whatever the pass counts, the cursor stands where one unbroken chase of all the loads so far would. */
  lemma {:induction false} CursorIsTheExactIterate(s: Buffers, passes: nat)
    requires Ready(LatencyRandom, s) && s.permutation != []
    ensures Passes(LatencyRandom, s, passes).0 == Advanced(s, passes * LATENCY_STEPS_PER_PASS)
  {
    if passes > 0 {
      var before := (passes - 1) * LATENCY_STEPS_PER_PASS;
      CursorIsTheExactIterate(s, passes - 1);
      OnePassAdvances(s, before, passes - 1);
      OneMorePass(LatencyRandom, s, passes - 1);
    }
  }

  /** Repetitions continue each other: `m` passes and then `n` more walk as far as `m + n` would. */
  lemma RepetitionsContinue(s: Buffers, m: nat, n: nat)
    requires Ready(LatencyRandom, s) && s.permutation != []
    ensures Passes(LatencyRandom, Passes(LatencyRandom, s, m).0, n).0 == Passes(LatencyRandom, s, m + n).0
  {
    var j, k := m * LATENCY_STEPS_PER_PASS, n * LATENCY_STEPS_PER_PASS;
    CursorIsTheExactIterate(s, m);
    AdvancesJoin(s, j, k);
    CursorIsTheExactIterate(Advanced(s, j), n);
    CursorIsTheExactIterate(s, m + n);
  }

  lemma LoadsDiffer(next: seq<nat>, cursor: nat, loads: nat, i: nat, j: nat)
    requires SingleCycle(next) && cursor < |next| && loads <= i < j < loads + |next|
    ensures Chase(next, cursor, i) != Chase(next, cursor, j)
  {
    assert Apart(next, Chase(next, cursor, loads), i - loads, j - loads);
    ChaseComposes(next, cursor, loads, i - loads);
    ChaseComposes(next, cursor, loads, j - loads);
  }

  /** Some load after the first `loads`, within one turn, touches `slot`. */
  ghost predicate Touches(next: seq<nat>, cursor: nat, loads: nat, slot: nat)
    requires InRange(next) && cursor < |next|
  {
    exists k :: loads <= k < loads + |next| && Chase(next, cursor, k) == slot
  }

  lemma LoadTouches(next: seq<nat>, cursor: nat, loads: nat, slot: nat)
    requires SingleCycle(next) && cursor < |next| && slot < |next|
    ensures Touches(next, cursor, loads, slot)
  {
    var at := Chase(next, cursor, loads);
    assert Reaches(next, at, slot);
    var k :| 0 <= k < |next| && Chase(next, at, k) == slot;
    ChaseComposes(next, cursor, loads, k);
  }

  /** Wherever the chase has got to, its next full turn loads every slot exactly once and returns. */
  lemma AnyTurnIsComplete(next: seq<nat>, cursor: nat, loads: nat)
    requires SingleCycle(next) && cursor < |next|
    ensures forall i, j :: loads <= i < j < loads + |next| ==> Chase(next, cursor, i) != Chase(next, cursor, j)
    ensures forall slot :: 0 <= slot < |next| ==> Touches(next, cursor, loads, slot)
    ensures Chase(next, cursor, loads + |next|) == Chase(next, cursor, loads)
  {
    forall i, j | loads <= i < j < loads + |next|
      ensures Chase(next, cursor, i) != Chase(next, cursor, j)
    {
      LoadsDiffer(next, cursor, loads, i, j);
    }
    forall slot | 0 <= slot < |next|
      ensures Touches(next, cursor, loads, slot)
    {
      LoadTouches(next, cursor, loads, slot);
    }
    ChaseComposes(next, cursor, loads, |next|);
  }

  /** The gather and the scan do the same loads: any number of passes returns the same value and changes nothing. */
  lemma {:induction false} GatherEqualsScan(s: Buffers, passes: nat)
    requires Ready(RandomRead, s)
    ensures Passes(RandomRead, s, passes) == Passes(SequentialRead, s, passes)
    ensures Passes(RandomRead, s, passes).0 == s
  {
    if passes > 0 {
      GatherEqualsScan(s, passes - 1);
      GatherReadsEverythingOnce(s.a, s.permutation);
    }
  }
}
