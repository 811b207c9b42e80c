/**
 The index permutation of the memory module and the walks over it: the dependent
 pointer chase and the random gather.
*/
module PointerChase {
  /** Where `k` dependent loads from `at` lead. */
  function Chase(next: seq<nat>, at: nat, k: nat): nat
    requires InRange(next) && at < |next|
    ensures Chase(next, at, k) < |next|
  {
    if k == 0 then at else next[Chase(next, at, k - 1)]
  }

  predicate InRange(s: seq<nat>) {
    forall i :: 0 <= i < |s| ==> s[i] < |s|
  }

  /** `pos` is where each slot stands in `order`, so `order` lists every slot once. */
  ghost predicate Inverse(order: seq<nat>, pos: seq<nat>) {
    && |pos| == |order| && InRange(order) && InRange(pos)
    && (forall i {:trigger pos[order[i]]} :: 0 <= i < |order| ==> pos[order[i]] == i)
    && (forall v {:trigger order[pos[v]]} :: 0 <= v < |order| ==> order[pos[v]] == v)
  }

  /** The slot visited after position `k`. */
  function After(order: seq<nat>, k: nat): nat
    requires k < |order|
  {
    if k + 1 < |order| then order[k + 1] else order[0]
  }

  /** `next` leads from each slot of `order` to the one after it, and from the last to the first. */
  ghost predicate Links(next: seq<nat>, order: seq<nat>) {
    && |next| == |order|
    && InRange(order)
    && forall k {:trigger next[order[k]]} :: 0 <= k < |order| ==> next[order[k]] == After(order, k)
  }

  ghost predicate Reaches(next: seq<nat>, at: nat, slot: nat)
    requires InRange(next) && at < |next|
  {
    exists k :: 0 <= k < |next| && Chase(next, at, k) == slot
  }

  /** Two loads of a walk touch different slots. */
  ghost predicate Apart(next: seq<nat>, at: nat, i: nat, j: nat)
    requires InRange(next) && at < |next|
  {
    Chase(next, at, i) != Chase(next, at, j)
  }

  /** One cycle through every slot: from anywhere, the next `|next|` loads touch each slot exactly once. */
  ghost predicate SingleCycle(next: seq<nat>) {
    && InRange(next)
    && (forall at, i, j :: 0 <= at < |next| && 0 <= i < j < |next| ==> Apart(next, at, i, j))
    && (forall at, slot :: 0 <= at < |next| && 0 <= slot < |next| ==> Reaches(next, at, slot))
    && (forall at :: 0 <= at < |next| ==> Chase(next, at, |next|) == at)
  }

  lemma SwapKeepsInverse(order: seq<nat>, pos: seq<nat>, i: nat, j: nat)
    requires Inverse(order, pos) && i < |order| && j < |order|
    ensures Inverse(order[i := order[j]][j := order[i]], pos[order[i] := j][order[j] := i])
  {
    var order', pos' := order[i := order[j]][j := order[i]], pos[order[i] := j][order[j] := i];
    assert pos[order[i]] == i && pos[order[j]] == j;
    forall k | 0 <= k < |order|
      ensures pos'[order'[k]] == k
    {
      assert pos[order[k]] == k;
    }
    forall v | 0 <= v < |order|
      ensures order'[pos'[v]] == v
    {
      assert order[pos[v]] == v;
    }
  }

  /** Position `m + k` of a cyclic order, for at most one turn. */
  function Wrap(m: nat, n: nat): nat
    requires m < 2 * n
  {
    if m < n then m else m - n
  }

  lemma {:induction false} ChaseFollowsOrder(next: seq<nat>, order: seq<nat>, m: nat, k: nat)
    requires InRange(next) && Links(next, order) && m < |order| && k <= |order|
    ensures order[m] < |next| && Chase(next, order[m], k) == order[Wrap(m + k, |order|)]
  {
    if k > 0 {
      ChaseFollowsOrder(next, order, m, k - 1);
    }
  }

  lemma LinksStayInRange(next: seq<nat>, order: seq<nat>, pos: seq<nat>)
    requires Inverse(order, pos) && Links(next, order)
    ensures InRange(next)
  {
    forall v | 0 <= v < |next|
      ensures next[v] < |next|
    {
      assert next[order[pos[v]]] == After(order, pos[v]);
    }
  }

  /** Where the walk from `at` stands after `k` loads: `k` places further in the visiting order. */
  lemma ChaseStands(next: seq<nat>, order: seq<nat>, pos: seq<nat>, at: nat, k: nat)
    requires Inverse(order, pos) && Links(next, order) && InRange(next)
    requires at < |next| && k <= |next|
    ensures Chase(next, at, k) == order[Wrap(pos[at] + k, |next|)]
    ensures pos[Chase(next, at, k)] == Wrap(pos[at] + k, |next|)
  {
    ChaseFollowsOrder(next, order, pos[at], k);
  }

  lemma NoSlotTwice(next: seq<nat>, order: seq<nat>, pos: seq<nat>, at: nat, i: nat, j: nat)
    requires Inverse(order, pos) && Links(next, order) && InRange(next)
    requires at < |next| && i < j < |next|
    ensures Chase(next, at, i) != Chase(next, at, j)
  {
    ChaseStands(next, order, pos, at, i);
    ChaseStands(next, order, pos, at, j);
  }

  lemma EverySlotReached(next: seq<nat>, order: seq<nat>, pos: seq<nat>, at: nat, slot: nat)
    requires Inverse(order, pos) && Links(next, order) && InRange(next)
    requires at < |next| && slot < |next|
    ensures Reaches(next, at, slot)
  {
    var k := if pos[slot] >= pos[at] then pos[slot] - pos[at] else pos[slot] + |next| - pos[at];
    ChaseStands(next, order, pos, at, k);
  }

  /** Any visiting order whatever makes one cycle; nothing more is asked of the shuffle. */
  lemma LinksMakeOneCycle(next: seq<nat>, order: seq<nat>, pos: seq<nat>)
    requires Inverse(order, pos) && Links(next, order)
    ensures SingleCycle(next)
  {
    var n := |next|;
    LinksStayInRange(next, order, pos);
    forall at, i, j | 0 <= at < n && 0 <= i < j < n
      ensures Apart(next, at, i, j)
    {
      NoSlotTwice(next, order, pos, at, i, j);
    }
    forall at, slot | 0 <= at < n && 0 <= slot < n
      ensures Reaches(next, at, slot)
    {
      EverySlotReached(next, order, pos, at, slot);
    }
    forall at | 0 <= at < n
      ensures Chase(next, at, n) == at
    {
      ChaseStands(next, order, pos, at, n);
    }
  }

  /** Every slot is some slot's successor. */
  lemma CycleIsOnto(next: seq<nat>, slot: nat)
    requires SingleCycle(next) && slot < |next|
    ensures slot in next
  {
    var n := |next|;
    assert Chase(next, slot, n) == slot;
    assert next[Chase(next, slot, n - 1)] == slot;
  }

  lemma {:induction false} ChaseComposes(next: seq<nat>, at: nat, j: nat, k: nat)
    requires InRange(next) && at < |next|
    ensures Chase(next, Chase(next, at, j), k) == Chase(next, at, j + k)
  {
    if k > 0 {
      ChaseComposes(next, at, j, k - 1);
    }
  }

  /** `len as u32` wraps at 2^32, where the program indexes an empty array; it supports shorter lengths. */
  const U32_SIZE: nat := 0x1_0000_0000

  /** `draw(k)` is the generator's `k`-th output; nothing is assumed of it. */
  method Permutation(len: nat, draw: nat -> nat) returns (next: array<nat>)
    requires len < U32_SIZE
    ensures fresh(next) && next.Length == len
    ensures SingleCycle(next[..])
  {
    var order := new nat[len](i => i);
    ghost var pos: seq<nat> := seq(len, i => i);
    if len < 2 {
      assert len == 1 ==> Links(order[..], order[..]);
      LinksMakeOneCycle(order[..], order[..], pos);
      return order;
    }
    var k := 0;
    for i := len downto 1
      invariant Inverse(order[..], pos)
    {
      var j := draw(k) % i;
      k := k + 1;
      SwapKeepsInverse(order[..], pos, i, j);
      pos := pos[order[i] := j][order[j] := i];
      order[i], order[j] := order[j], order[i];
    }
    next := LinkUp(order, pos);
  }

  /** Turns a visiting order into next-pointers. */
  method LinkUp(order: array<nat>, ghost pos: seq<nat>) returns (next: array<nat>)
    requires Inverse(order[..], pos) && order.Length > 0
    ensures fresh(next) && next.Length == order.Length
    ensures SingleCycle(next[..])
  {
    var len := order.Length;
    next := new nat[len](_ => 0);
    for w := 0 to len - 1
      invariant forall v :: 0 <= v < len && pos[v] < w ==> next[v] == After(order[..], pos[v])
    {
      next[order[w]] := order[w + 1];
    }
    next[order[len - 1]] := order[0];
    LinksMakeOneCycle(next[..], order[..], pos);
  }

  // ----- sums over the payload -------------------------------------------------------

  function Sum(a: seq<nat>): nat {
    if a == [] then 0 else Sum(a[..|a| - 1]) + a[|a| - 1]
  }

  /** The payload read through an index stream. */
  function SumThrough(a: seq<nat>, index: seq<nat>): nat
    requires forall i :: 0 <= i < |index| ==> index[i] < |a|
  {
    if index == [] then 0 else SumThrough(a, index[..|index| - 1]) + a[index[|index| - 1]]
  }

  lemma {:induction false} SumThroughAdds(a: seq<nat>, x: seq<nat>, y: seq<nat>)
    requires forall i :: 0 <= i < |x| ==> x[i] < |a|
    requires forall i :: 0 <= i < |y| ==> y[i] < |a|
    ensures SumThrough(a, x + y) == SumThrough(a, x) + SumThrough(a, y)
    decreases |y|
  {
    if y == [] {
      assert x + y == x;
    } else {
      assert (x + y)[..|x + y| - 1] == x + y[..|y| - 1];
      SumThroughAdds(a, x, y[..|y| - 1]);
    }
  }

  /** Dropping the one entry that names `n` leaves a stream that still names everything below it. */
  lemma WithoutLargest(index: seq<nat>, n: nat, p: nat)
    requires p < |index| && index[p] == n
    requires forall v :: 0 <= v <= n ==> v in index
    ensures var rest := index[..p] + index[p + 1..];
            forall v :: 0 <= v < n ==> v in rest
  {
    var rest := index[..p] + index[p + 1..];
    forall v | 0 <= v < n
      ensures v in rest
    {
      assert v in index;
      var i :| 0 <= i < |index| && index[i] == v;
      assert rest[if i < p then i else i - 1] == v;
    }
  }

  lemma SumMiddle(a: seq<nat>, x: seq<nat>, v: nat, y: seq<nat>)
    requires v < |a|
    requires forall i :: 0 <= i < |x| ==> x[i] < |a|
    requires forall i :: 0 <= i < |y| ==> y[i] < |a|
    ensures SumThrough(a, x + [v] + y) == SumThrough(a, x + y) + a[v]
  {
    SumThroughAdds(a, x + [v], y);
    SumThroughAdds(a, x, [v]);
    SumThroughAdds(a, x, y);
    assert [v][..0] == [];
    assert SumThrough(a, [v]) == SumThrough(a, [v][..0]) + a[v];
  }

  /** Taking one entry out of a stream takes its element out of the sum. */
  lemma TakeOut(a: seq<nat>, index: seq<nat>, p: nat)
    requires p < |index|
    requires forall i :: 0 <= i < |index| ==> index[i] < |a|
    ensures var rest := index[..p] + index[p + 1..];
            && |rest| == |index| - 1
            && (forall i :: 0 <= i < |rest| ==> rest[i] < |a|)
            && SumThrough(a, index) == SumThrough(a, rest) + a[index[p]]
  {
    assert index == index[..p] + [index[p]] + index[p + 1..];
    SumMiddle(a, index[..p], index[p], index[p + 1..]);
  }

  lemma SumPrefix(a: seq<nat>, n: nat)
    requires 0 < n <= |a|
    ensures Sum(a[..n]) == Sum(a[..n - 1]) + a[n - 1]
  {
    assert a[..n][..n - 1] == a[..n - 1];
  }

  /** An index stream as long as the prefix it covers visits each of its elements once. */
  lemma {:induction false} CoveringSum(a: seq<nat>, index: seq<nat>, n: nat)
    requires n <= |a| && |index| == n
    requires forall i :: 0 <= i < |index| ==> index[i] < |a|
    requires forall v :: 0 <= v < n ==> v in index
    ensures SumThrough(a, index) == Sum(a[..n])
    decreases n
  {
    if n > 0 {
      assert n - 1 in index;
      var p :| 0 <= p < |index| && index[p] == n - 1;
      var rest := index[..p] + index[p + 1..];
      TakeOut(a, index, p);
      WithoutLargest(index, n - 1, p);
      CoveringSum(a, rest, n - 1);
      SumPrefix(a, n);
    }
  }

  /** The random gather reads exactly what the sequential scan reads. */
  lemma GatherReadsEverythingOnce(a: seq<nat>, next: seq<nat>)
    requires SingleCycle(next) && |next| == |a|
    ensures SumThrough(a, next) == Sum(a)
  {
    forall v | 0 <= v < |a|
      ensures v in next
    {
      CycleIsOnto(next, v);
    }
    CoveringSum(a, next, |a|);
    assert a[..|a|] == a;
  }
}
