/**
 The event stream of one run as the agent holds it: the sequence counter, the
 complete record, the bounded replay buffer and the broadcast channel.

 The pure functions over `Log` say what an emission and a replay request mean;
 the class `RunHandle` is the imperative form that must agree with them.
*/
module RunLog {
  import opened Prelude

  /** Capacity of both the replay buffer and the broadcast channel. */
  const REPLAY_BUFFER: nat := 4096

  datatype Envelope<+E> = Envelope(seqNo: nat, event: E)

  datatype Log<E> = Log(
    next: nat,
    record: seq<Envelope<E>>,
    events: seq<Envelope<E>>,
    truncated: bool)

  function EmptyLog<E>(): Log<E> {
    Log(0, [], [], false)
  }

  /** The complete record after one more emission. */
  function Appended<E>(record: seq<Envelope<E>>, event: E): seq<Envelope<E>> {
    record + [Envelope(|record|, event)]
  }

  /** What one emission does to the stream. */
  function Emitted<E>(log: Log<E>, event: E): Log<E> {
    var envelope := Envelope(log.next, event);
    var full := |log.events| >= REPLAY_BUFFER;
    Log(log.next + 1,
        log.record + [envelope],
        (if full then log.events[1..] else log.events) + [envelope],
        log.truncated || full)
  }

  /** The sequence number of the oldest event a ring of `REPLAY_BUFFER` slots still holds. */
  function Oldest(n: nat): nat {
    if n <= REPLAY_BUFFER then 0 else n - REPLAY_BUFFER
  }

  /** The record is numbered 0, 1, 2, ... without a hole. */
  ghost predicate Numbered<E>(record: seq<Envelope<E>>) {
    forall i :: 0 <= i < |record| ==> record[i].seqNo == i
  }

  /** The bounded buffer is exactly the tail of the complete record. */
  ghost predicate ValidLog<E>(log: Log<E>) {
    && log.next == |log.record| <= U64_MAX
    && Numbered(log.record)
    && log.events == log.record[Oldest(|log.record|)..]
    && (log.truncated <==> |log.record| > REPLAY_BUFFER)
  }

  lemma EmittedKeepsValid<E>(log: Log<E>, event: E)
    requires ValidLog(log) && log.next < U64_MAX
    ensures ValidLog(Emitted(log, event))
    ensures Emitted(log, event).record == Appended(log.record, event)
  {
    var n, log' := |log.record|, Emitted(log, event);
    assert log'.events == log'.record[Oldest(n + 1)..];
  }

  /** How many leading events carry a number at or below `after`. */
  function PartitionPoint<E>(events: seq<Envelope<E>>, after: nat): (k: nat)
    ensures k <= |events|
    ensures forall i :: 0 <= i < k ==> events[i].seqNo <= after
    ensures k < |events| ==> events[k].seqNo > after
  {
    if events == [] || events[0].seqNo > after then 0
    else 1 + PartitionPoint(events[1..], after)
  }

  /** The reply to a replay request; `None` tells the client to refetch the run. */
  function Since<E>(log: Log<E>, after: Option<nat>): Option<seq<Envelope<E>>> {
    match after
    case None => Some(log.events)
    case Some(a) =>
      var needed := Saturate(a + 1);
      if log.truncated && |log.events| > 0 && needed < log.events[0].seqNo then None
      else Some(log.events[PartitionPoint(log.events, a)..])
  }

  lemma PartitionPointOfRun<E>(events: seq<Envelope<E>>, first: nat, after: nat)
    requires forall i :: 0 <= i < |events| ==> events[i].seqNo == first + i
    ensures PartitionPoint(events, after) == Min(Max(after + 1 - first, 0), |events|)
  {
    var k := PartitionPoint(events, after);
    if k > 0 {
      assert events[k - 1].seqNo == first + k - 1;
    }
    if k < |events| {
      assert events[k].seqNo == first + k;
    }
  }

  /**
   The reply in terms of the complete record alone: the whole rest of it, unless
   the next event has left a ring of `REPLAY_BUFFER` slots.
  */
  function Replay<E>(record: seq<Envelope<E>>, after: Option<nat>): Option<seq<Envelope<E>>> {
    var o := Oldest(|record|);
    if after.None? then Some(record[o..])
    else if after.value + 1 < o then None
    else Some(record[Min(after.value + 1, |record|)..])
  }

  /** From a position inside the buffer, the split leaves exactly the record after it. */
  lemma ResumeInside<E>(record: seq<Envelope<E>>, first: nat, a: nat)
    requires Numbered(record) && first <= |record| && first <= a + 1
    ensures record[first..][PartitionPoint(record[first..], a)..] == record[Min(a + 1, |record|)..]
  {
    var events := record[first..];
    var k := PartitionPoint(events, a);
    PartitionPointOfRun(events, first, a);
    assert first + k == Min(a + 1, |record|);
    SliceOfSlice(record, first, k);
  }

  /** The reply to a resume depends only on where in the record the buffer starts. */
  lemma ResumeFrom<E>(log: Log<E>, record: seq<Envelope<E>>, first: nat, a: nat)
    requires Numbered(record) && first <= |record| <= U64_MAX && a <= U64_MAX
    requires log.events == record[first..]
    requires log.truncated <==> first > 0
    requires first > 0 ==> first < |record|
    ensures Since(log, Some(a)) ==
            if a + 1 < first then None else Some(record[Min(a + 1, |record|)..])
  {
    if a + 1 >= first {
      ResumeInside(record, first, a);
    }
  }

  /** The bounded buffer answers every request as the complete record would, down to the same refusals. */
  lemma SinceIsReplay<E>(log: Log<E>, after: Option<nat>)
    requires ValidLog(log) && (after.Some? ==> after.value <= U64_MAX)
    ensures Since(log, after) == Replay(log.record, after)
  {
    if after.Some? {
      ResumeFrom(log, log.record, Oldest(|log.record|), after.value);
    }
  }

  lemma SliceOfSlice<T>(s: seq<T>, i: nat, j: nat)
    requires i + j <= |s|
    ensures s[i..][j..] == s[i + j..]
  {
  }

  /** What a receiver of the broadcast channel finds when it polls at position `at`. */
  datatype Polled<+E> = Empty | Lagged(resumeAt: nat) | Message(envelope: Envelope<E>)

  /**
   Every emission is broadcast, so a receiver's position is the number of the
   event it expects next. A receiver more than a full ring behind is told it
   lagged and is moved to the oldest event still held.
  */
  function Poll<E>(record: seq<Envelope<E>>, at: nat): Polled<E> {
    if at >= |record| then Empty
    else if at < Oldest(|record|) then Lagged(Oldest(|record|))
    else Message(record[at])
  }

  class RunHandle<E(==)> {
    var nextSeq: nat
    var events: seq<Envelope<E>>
    var truncated: bool
    var record: seq<Envelope<E>>

    ghost function Model(): Log<E>
      reads this
    {
      Log(nextSeq, record, events, truncated)
    }

    ghost predicate Valid()
      reads this
    {
      ValidLog(Model())
    }

    constructor ()
      ensures Valid() && Model() == EmptyLog()
    {
      nextSeq, events, truncated, record := 0, [], false, [];
    }

    /** Allocates the number, extends the record, evicts and appends: one critical section. */
    method Emit(event: E) returns (envelope: Envelope<E>)
      requires Valid() && nextSeq < U64_MAX
      modifies this
      ensures Valid()
      ensures Model() == Emitted(old(Model()), event)
      ensures envelope == Envelope(old(nextSeq), event)
    {
      ghost var before := Model();
      EmittedKeepsValid(before, event);
      envelope := Envelope(nextSeq, event);
      nextSeq := nextSeq + 1;
      record := record + [envelope];
      if |events| >= REPLAY_BUFFER {
        events := events[1..];
        truncated := true;
      }
      events := events + [envelope];
      assert Model() == Emitted(before, event);
    }

    method EventsSince(after: Option<nat>) returns (reply: Option<seq<Envelope<E>>>)
      requires Valid() && (after.Some? ==> after.value <= U64_MAX)
      ensures reply == Replay(record, after)
    {
      SinceIsReplay(Model(), after);
      match after
      case None =>
        reply := Some(events);
      case Some(a) =>
        var needed := Saturate(a + 1);
        if truncated && |events| > 0 && needed < events[0].seqNo {
          return None;
        }
        var start := PartitionPoint(events, a);
        reply := Some(events[start..]);
    }

    method LastSeq() returns (last: nat)
      requires Valid()
      ensures last == if record == [] then 0 else record[|record| - 1].seqNo
    {
      last := if nextSeq == 0 then 0 else nextSeq - 1;
    }
  }

  /** In every reachable state, whatever was emitted: the buffer is the record's tail and nothing else. */
  function EmitAll<E>(log: Log<E>, events: seq<E>): Log<E> {
    if events == [] then log
    else Emitted(EmitAll(log, events[..|events| - 1]), events[|events| - 1])
  }

  lemma {:induction false} BufferRefinesRecord<E>(events: seq<E>)
    requires |events| <= U64_MAX
    ensures var log := EmitAll(EmptyLog(), events);
            && ValidLog(log)
            && |log.record| == |events|
            && (forall i :: 0 <= i < |events| ==> log.record[i] == Envelope(i, events[i]))
            && log.events == log.record[Oldest(|events|)..]
            && (log.truncated <==> |events| > REPLAY_BUFFER)
  {
    if events != [] {
      var init := events[..|events| - 1];
      BufferRefinesRecord(init);
      EmittedKeepsValid(EmitAll(EmptyLog(), init), events[|events| - 1]);
    }
  }
}
