/**
 Working-set sizes for the memory module, in `u64` arithmetic with its explicit
 saturation. A quarter of the available memory is taken by integer division;
 the program goes through a float, exact below 2^53 bytes.
*/
module Sizing {
  import opened Prelude
  import opened Kernels
  import opened PointerChase

  const LLC_MULTIPLE: nat := 4
  const FALLBACK_LLC_BYTES: nat := 33554432
  const MIN_WORKING_SET: nat := 33554432
  const MAX_WORKING_SET: nat := 536870912
  const L2_MULTIPLE: nat := 4
  const MIN_CREDIBLE_MULTIPLE: nat := 2
  const FALLBACK_CACHE_BYTES: nat := 262144
  const PEAK_BUFFERS: nat := 3
  const PAGE: nat := 4096

  datatype MachineFacts = MachineFacts(lastLevelCache: Option<nat>, l2Cache: Option<nat>, available: Option<nat>)

  datatype Plan = Plan(
    threads: nat, single: nat, multi: nat, cache: nat, llc: nat, llcAssumed: bool,
    singleContaminated: bool, multiContaminated: bool, peakAlloc: nat)

  function Known(reported: Option<nat>, fallback: nat): nat {
    if reported.Some? && reported.value > 0 then reported.value else fallback
  }

  function AlignDown(bytes: nat): nat {
    Max(bytes - bytes % PAGE, PAGE)
  }

  function Clamp(n: nat, lo: nat, hi: nat): nat
    requires lo <= hi
  {
    if n < lo then lo else if n > hi then hi else n
  }

  /** What may be allocated in all; unknown memory is constrained, not unlimited. */
  function Budget(facts: MachineFacts, threads: nat): nat {
    match facts.available
    case Some(available) => available / 4
    case None => Saturate(MIN_WORKING_SET * Saturate(threads * PEAK_BUFFERS))
  }

  /** One thread's share of the budget at the heaviest pattern. */
  function Affordable(budget: nat, threads: nat): nat {
    budget / Max(Saturate(threads * PEAK_BUFFERS), 1)
  }

  function SingleBytes(target: nat, budget: nat): nat {
    AlignDown(Max(Min(Clamp(target, MIN_WORKING_SET, MAX_WORKING_SET), Affordable(budget, 1)), PAGE))
  }

  function MultiBytes(target: nat, l2: nat, budget: nat, threads: nat): nat
    requires threads > 0
  {
    AlignDown(Max(Min(Min(Max(target / threads, Saturate(l2 * L2_MULTIPLE)), MAX_WORKING_SET),
                      Affordable(budget, threads)), PAGE))
  }

  lemma AlignedDown(bytes: nat)
    ensures AlignDown(bytes) % PAGE == 0 && PAGE <= AlignDown(bytes) <= Max(bytes, PAGE)
  {
  }

  function ForMachine(facts: MachineFacts, requested: nat): Plan {
    var threads := Max(requested, 1);
    var llc := Known(facts.lastLevelCache, FALLBACK_LLC_BYTES);
    var l2 := Known(facts.l2Cache, FALLBACK_CACHE_BYTES);
    var budget := Budget(facts, threads);
    var target := Saturate(llc * LLC_MULTIPLE);
    var single := SingleBytes(target, budget);
    var multi := MultiBytes(target, l2, budget, threads);
    var credible := Saturate(llc * MIN_CREDIBLE_MULTIPLE);
    assert Min(single, multi) >= PAGE by {
      SizesArePages(target, l2, budget, threads);
    }
    var cache := AlignDown(Max(Clamp(l2 / 2, PAGE, Min(single, multi)), PAGE));
    Plan(threads, single, multi, cache, llc, facts.lastLevelCache.None?, single < credible,
         Saturate(multi * threads) < credible,
         Max(Saturate(single * PEAK_BUFFERS), Saturate(Saturate(multi * PEAK_BUFFERS) * threads)))
  }

  /** The working set one thread streams. */
  function Bytes(plan: Plan, access: Access, threads: nat): nat {
    if access.CacheRead? then plan.cache else if threads <= 1 then plan.single else plan.multi
  }

  lemma SizesArePages(target: nat, l2: nat, budget: nat, threads: nat)
    requires threads > 0
    ensures SingleBytes(target, budget) % PAGE == 0
    ensures PAGE <= SingleBytes(target, budget) <= Min(MAX_WORKING_SET, Max(Affordable(budget, 1), PAGE))
    ensures MultiBytes(target, l2, budget, threads) % PAGE == 0
    ensures PAGE <= MultiBytes(target, l2, budget, threads) <=
            Min(MAX_WORKING_SET, Max(Affordable(budget, threads), PAGE))
  {
    AlignedDown(Max(Min(Clamp(target, MIN_WORKING_SET, MAX_WORKING_SET), Affordable(budget, 1)), PAGE));
    AlignedDown(Max(Min(Min(Max(target / threads, Saturate(l2 * L2_MULTIPLE)), MAX_WORKING_SET),
                        Affordable(budget, threads)), PAGE));
  }

  /** On every machine the sizes are whole pages, the cache set fits inside both others, and indices fit in 32 bits. */
  lemma SizesAreSound(facts: MachineFacts, requested: nat)
    ensures var p := ForMachine(facts, requested);
            && p.single % PAGE == p.multi % PAGE == p.cache % PAGE == 0
            && PAGE <= p.cache <= Min(p.single, p.multi)
            && Max(p.single, p.multi) <= MAX_WORKING_SET
            && p.single / INDEX_BYTES < U32_SIZE && p.multi / INDEX_BYTES < U32_SIZE
  {
    var p := ForMachine(facts, requested);
    var threads := Max(requested, 1);
    var l2 := Known(facts.l2Cache, FALLBACK_CACHE_BYTES);
    SizesArePages(Saturate(Known(facts.lastLevelCache, FALLBACK_LLC_BYTES) * LLC_MULTIPLE), l2,
                  Budget(facts, threads), threads);
    AlignedDown(Max(Clamp(l2 / 2, PAGE, Min(p.single, p.multi)), PAGE));
  }

  lemma WithinAPage(bytes: nat)
    ensures bytes < AlignDown(bytes) + PAGE
  {
  }

  /** No size is smaller than it has to be: each is within a page of the tightest limit on it. */
  lemma SizesAreMaximal(facts: MachineFacts, requested: nat)
    ensures var p := ForMachine(facts, requested);
            var budget := Budget(facts, p.threads);
            var target := Saturate(p.llc * LLC_MULTIPLE);
            var l2 := Known(facts.l2Cache, FALLBACK_CACHE_BYTES);
            && Min(Min(Max(target, MIN_WORKING_SET), MAX_WORKING_SET), Affordable(budget, 1)) < p.single + PAGE
            && Min(Min(Max(target / p.threads, Saturate(l2 * L2_MULTIPLE)), MAX_WORKING_SET),
                   Affordable(budget, p.threads)) < p.multi + PAGE
            && Min(Min(l2 / 2, p.single), p.multi) < p.cache + PAGE
  {
    var p := ForMachine(facts, requested);
    var budget, target := Budget(facts, p.threads), Saturate(p.llc * LLC_MULTIPLE);
    var l2 := Known(facts.l2Cache, FALLBACK_CACHE_BYTES);
    SizesArePages(target, l2, budget, p.threads);
    WithinAPage(Max(Min(Clamp(target, MIN_WORKING_SET, MAX_WORKING_SET), Affordable(budget, 1)), PAGE));
    WithinAPage(Max(Min(Min(Max(target / p.threads, Saturate(l2 * L2_MULTIPLE)), MAX_WORKING_SET),
                        Affordable(budget, p.threads)), PAGE));
    WithinAPage(Max(Clamp(l2 / 2, PAGE, Min(p.single, p.multi)), PAGE));
  }

  /**
   A plan is reported clean only when its working sets really are twice the last
   level cache, and the single-threaded one is clean whenever memory affords the
   documented multiple and the ceiling does not cut it.
  */
  lemma ContaminationIsHonest(facts: MachineFacts, requested: nat)
    ensures var p := ForMachine(facts, requested);
            && (p.singleContaminated <==> p.single < p.llc * MIN_CREDIBLE_MULTIPLE)
            && (!p.multiContaminated ==> p.multi * p.threads >= Min(p.llc * MIN_CREDIBLE_MULTIPLE, U64_MAX))
            && (p.llc * LLC_MULTIPLE <= Min(MAX_WORKING_SET, Affordable(Budget(facts, p.threads), 1)) ==>
                  !p.singleContaminated)
  {
    SizesAreSound(facts, requested);
    SizesAreMaximal(facts, requested);
  }

  /** A size within one thread's share costs all the threads together no more than the budget. */
  lemma ShareFits(budget: nat, threads: nat, bytes: nat)
    requires threads > 0 && bytes <= Max(Affordable(budget, threads), PAGE)
    ensures Saturate(bytes * PEAK_BUFFERS * threads) <= Max(budget, PAGE * PEAK_BUFFERS * threads)
  {
    var parts := threads * PEAK_BUFFERS;
    assert bytes * PEAK_BUFFERS * threads == bytes * parts;
    if bytes <= PAGE {
      Multiply(bytes, PAGE, parts);
      assert PAGE * PEAK_BUFFERS * threads == PAGE * parts;
    } else if parts <= U64_MAX {
      WithinShare(budget, parts, bytes);
    } else {
      SmallShare(budget);
    }
  }

  lemma SmallShare(budget: nat)
    ensures budget <= U64_MAX ==> budget / U64_MAX <= 1
  {
  }

  lemma WithinShare(budget: nat, parts: nat, bytes: nat)
    requires parts > 0 && bytes <= budget / parts
    ensures bytes * parts <= budget
  {
    Multiply(bytes, budget / parts, parts);
    assert budget / parts * parts <= budget;
  }

  lemma Nested(a: nat, t: nat)
    ensures Saturate(Saturate(a) * t) <= Saturate(a * t)
    ensures t > 0 ==> Saturate(Saturate(a) * t) == Saturate(a * t)
  {
    if a > U64_MAX && t > 0 {
      Multiply(1, t, a);
      Multiply(1, t, U64_MAX);
    }
  }

  /**
   With known memory the plan's peak stays within a quarter of it, or within three
   pages a thread on a tiny machine.
  */
  lemma PeakStaysInBudget(facts: MachineFacts, requested: nat)
    ensures var p := ForMachine(facts, requested);
            p.peakAlloc <= Max(Budget(facts, p.threads), PAGE * PEAK_BUFFERS * p.threads)
    ensures facts.available.Some? ==>
              ForMachine(facts, requested).peakAlloc <= Max(facts.available.value / 4, 12288 * Max(requested, 1))
  {
    var p := ForMachine(facts, requested);
    var threads := Max(requested, 1);
    var budget := Budget(facts, threads);
    SizesArePages(Saturate(Known(facts.lastLevelCache, FALLBACK_LLC_BYTES) * LLC_MULTIPLE),
                  Known(facts.l2Cache, FALLBACK_CACHE_BYTES), budget, threads);
    ShareFits(budget, 1, p.single);
    ShareFits(budget, threads, p.multi);
    Nested(p.multi * PEAK_BUFFERS, threads);
    Multiply(1, threads, PAGE * PEAK_BUFFERS);
  }

  /**
   Heap one shape really holds while its working sets are prepared one after
   another: payloads and index streams for every thread, and the shuffle's
   temporary array for the one in preparation.
  */
  function Held(access: Access, bytes: nat, threads: nat): nat {
    Each(access, bytes) * threads + PermutationEntries(access, bytes) * INDEX_BYTES
  }

  /** What each thread keeps, its own bytes of payload and index stream. */
  function Each(access: Access, bytes: nat): nat {
    Payloads(access) * Elements(bytes) * ELEM + PermutationEntries(access, bytes) * INDEX_BYTES
  }

  lemma EachAtMostTriple(access: Access, pages: nat)
    requires pages > 0
    ensures Each(access, pages * PAGE) + PermutationEntries(access, pages * PAGE) * INDEX_BYTES <=
            pages * PAGE * PEAK_BUFFERS
  {
    assert pages * PAGE / ELEM == pages * 512 && pages * PAGE / INDEX_BYTES == pages * 1024;
  }

  lemma HeldAtMostTriple(access: Access, bytes: nat, threads: nat)
    requires bytes % PAGE == 0 && bytes >= PAGE && threads > 0
    ensures Held(access, bytes, threads) <= bytes * PEAK_BUFFERS * threads
  {
    var entries, each := PermutationEntries(access, bytes) * INDEX_BYTES, Each(access, bytes);
    assert bytes == bytes / PAGE * PAGE;
    EachAtMostTriple(access, bytes / PAGE);
    Spread(each, entries, threads, bytes * PEAK_BUFFERS);
  }

  lemma Spread(each: nat, entries: nat, threads: nat, limit: nat)
    requires threads > 0 && each + entries <= limit
    ensures each * threads + entries <= limit * threads
  {
    Multiply(each + entries, limit, threads);
    Multiply(1, threads, entries);
    assert (each + entries) * threads == each * threads + entries * threads;
  }

  /** The disclosed peak covers every pattern and both shapes, temporary arrays included. */
  lemma DisclosedPeakIsHonest(facts: MachineFacts, requested: nat, access: Access, threads: nat)
    requires var p := ForMachine(facts, requested);
             threads == 1 || threads == p.threads
    ensures var p := ForMachine(facts, requested);
            Saturate(Held(access, Bytes(p, access, threads), threads)) <= p.peakAlloc
  {
    var p := ForMachine(facts, requested);
    SizesAreSound(facts, requested);
    var bytes := Bytes(p, access, threads);
    HeldAtMostTriple(access, bytes, threads);
    Nested(p.multi * PEAK_BUFFERS, p.threads);
    if threads <= 1 {
      assert bytes <= p.single;
    } else {
      Multiply(bytes * PEAK_BUFFERS, p.multi * PEAK_BUFFERS, threads);
    }
  }
}
