/**
 Which part of the complete record a consumer holds. `Picked` names it exactly:
 the numbers from `lo` up to `hi`, in order and once each, except those in
 `missing`.
*/
module Coverage {
  import opened RunLog

  ghost function Picked<E>(record: seq<Envelope<E>>, lo: nat, hi: nat, missing: set<nat>): seq<Envelope<E>>
    requires hi <= |record|
    decreases hi
  {
    if hi <= lo then []
    else if hi - 1 in missing then Picked(record, lo, hi - 1, missing)
    else Picked(record, lo, hi - 1, missing) + [record[hi - 1]]
  }

  /** The numbers a skip from `a` to `b` passes over. */
  ghost function Range(a: nat, b: nat): (r: set<nat>)
    ensures forall s :: s in r <==> a <= s < b
  {
    if b <= a then {} else Range(a, b - 1) + {b - 1}
  }

  lemma {:induction false} PickedAll<E>(record: seq<Envelope<E>>, lo: nat, hi: nat, missing: set<nat>)
    requires lo <= hi <= |record|
    requires forall s :: lo <= s < hi ==> s !in missing
    ensures Picked(record, lo, hi, missing) == record[lo..hi]
    decreases hi
  {
    if lo < hi {
      PickedAll(record, lo, hi - 1, missing);
      assert record[lo..hi] == record[lo..hi - 1] + [record[hi - 1]];
    }
  }

  /** Only the record below `hi` and the gaps inside the window matter. */
  lemma {:induction false} PickedAgrees<E>(
    record: seq<Envelope<E>>, record': seq<Envelope<E>>, lo: nat, hi: nat, missing: set<nat>, missing': set<nat>)
    requires hi <= |record| && hi <= |record'|
    requires forall s :: lo <= s < hi ==> record[s] == record'[s] && (s in missing <==> s in missing')
    ensures Picked(record, lo, hi, missing) == Picked(record', lo, hi, missing')
    decreases hi
  {
    if lo < hi {
      PickedAgrees(record, record', lo, hi - 1, missing, missing');
    }
  }

  lemma {:induction false} PickedSplit<E>(record: seq<Envelope<E>>, lo: nat, mid: nat, hi: nat, missing: set<nat>)
    requires lo <= mid <= hi <= |record|
    ensures Picked(record, lo, hi, missing) == Picked(record, lo, mid, missing) + Picked(record, mid, hi, missing)
    decreases hi
  {
    if mid < hi {
      PickedSplit(record, lo, mid, hi - 1, missing);
    }
  }

  lemma {:induction false} PickedNone<E>(record: seq<Envelope<E>>, lo: nat, hi: nat, missing: set<nat>)
    requires hi <= |record|
    requires forall s :: lo <= s < hi ==> s in missing
    ensures Picked(record, lo, hi, missing) == []
    decreases hi
  {
    if lo < hi {
      PickedNone(record, lo, hi - 1, missing);
    }
  }

  /** Extending the window by a stretch that is wholly lost and then one that is wholly folded. */
  lemma Extend<E>(record: seq<Envelope<E>>, start: nat, h: nat, mid: nat, hi: nat, lost: set<nat>, gone: set<nat>)
    requires start <= h <= mid <= hi <= |record|
    requires forall n :: n in lost ==> n < h
    requires forall n :: n in gone <==> h <= n < mid
    ensures Picked(record, start, hi, lost + gone) == Picked(record, start, h, lost) + record[mid..hi]
  {
    var lost' := lost + gone;
    PickedAgrees(record, record, start, h, lost, lost');
    PickedSplit(record, start, h, hi, lost');
    PickedSplit(record, h, mid, hi, lost');
    PickedNone(record, h, mid, lost');
    PickedAll(record, mid, hi, lost');
  }

  /** The first element of a picked stretch: everything passed over before it is missing. */
  lemma {:induction false} PickedHead<E>(record: seq<Envelope<E>>, lo: nat, hi: nat, missing: set<nat>)
    requires hi <= |record| && Numbered(record)
    requires Picked(record, lo, hi, missing) != []
    ensures var p := Picked(record, lo, hi, missing);
            && lo <= p[0].seqNo < hi
            && p[0] == record[p[0].seqNo]
            && p[0].seqNo !in missing
            && (forall n :: lo <= n < p[0].seqNo ==> n in missing)
            && p[1..] == Picked(record, p[0].seqNo + 1, hi, missing)
    decreases hi
  {
    if Picked(record, lo, hi - 1, missing) != [] {
      PickedHead(record, lo, hi - 1, missing);
    } else {
      PickedMembers(record, lo, hi - 1, missing);
    }
  }

  /** Increasing numbers of the window, each as recorded, and exactly those not missing. */
  ghost predicate Holds<E>(record: seq<Envelope<E>>, p: seq<Envelope<E>>, lo: nat, hi: nat, missing: set<nat>)
    requires hi <= |record|
  {
    && (forall i :: 0 <= i < |p| ==> lo <= p[i].seqNo < hi && p[i] == record[p[i].seqNo])
    && (forall i, j :: 0 <= i < j < |p| ==> p[i].seqNo < p[j].seqNo)
    && (forall s :: lo <= s < hi ==> (record[s] in p <==> s !in missing))
  }

  lemma HoldsWithout<E>(record: seq<Envelope<E>>, p: seq<Envelope<E>>, lo: nat, n: nat, missing: set<nat>)
    requires lo <= n < |record| && Numbered(record)
    requires Holds(record, p, lo, n, missing) && n in missing
    ensures Holds(record, p, lo, n + 1, missing)
  {
    assert record[n] !in p;
  }

  lemma HoldsWith<E>(record: seq<Envelope<E>>, p: seq<Envelope<E>>, lo: nat, n: nat, missing: set<nat>)
    requires lo <= n < |record| && Numbered(record)
    requires Holds(record, p, lo, n, missing) && n !in missing
    ensures Holds(record, p + [record[n]], lo, n + 1, missing)
  {
    var q := p + [record[n]];
    assert q[|p|] == record[n];
    forall s | lo <= s < n
      ensures record[s] in q <==> s !in missing
    {
      assert record[s] != record[n];
    }
  }

  lemma {:induction false} PickedMembers<E>(record: seq<Envelope<E>>, lo: nat, hi: nat, missing: set<nat>)
    requires hi <= |record| && Numbered(record)
    ensures Holds(record, Picked(record, lo, hi, missing), lo, hi, missing)
    decreases hi
  {
    if lo < hi {
      var p := Picked(record, lo, hi - 1, missing);
      PickedMembers(record, lo, hi - 1, missing);
      if hi - 1 in missing {
        HoldsWithout(record, p, lo, hi - 1, missing);
      } else {
        HoldsWith(record, p, lo, hi - 1, missing);
      }
    }
  }

  /** A gap-free holding is the same thing as a plain slice of the record. */
  lemma GaplessIff<E>(record: seq<Envelope<E>>, lo: nat, hi: nat, missing: set<nat>)
    requires lo <= hi <= |record| && Numbered(record)
    requires forall s :: s in missing ==> lo <= s < hi
    ensures Picked(record, lo, hi, missing) == record[lo..hi] <==> missing == {}
  {
    if missing == {} {
      PickedAll(record, lo, hi, missing);
    } else {
      PickedMembers(record, lo, hi, missing);
      var s :| s in missing;
      assert record[lo..hi][s - lo] == record[s];
    }
  }
}
