/**
 The observers inside the agent process: the terminal dashboard's `drain` and
 the plain follower. Both hold one receiver of the broadcast channel, fold by
 sequence number and fall back to the replay buffer when told they lagged.
*/
module Observer {
  import opened Prelude
  import opened RunLog
  import opened Coverage

  /** `at` is the receiver's position; `last` and `folded` are what the fold accepted. */
  datatype State<E> = State(at: nat, last: Option<nat>, folded: seq<Envelope<E>>)

  /** The first number the fold has not yet accepted or passed over. */
  function Need(last: Option<nat>): nat {
    if last.None? then 0 else last.value + 1
  }

  /** Folds one envelope: anything not newer than the newest seen is ignored. */
  function Folded<E>(s: State<E>, envelope: Envelope<E>): State<E> {
    if s.last.Some? && envelope.seqNo <= s.last.value then s
    else s.(last := Some(envelope.seqNo), folded := s.folded + [envelope])
  }

  function FoldAll<E>(s: State<E>, envelopes: seq<Envelope<E>>): State<E>
    decreases |envelopes|
  {
    if envelopes == [] then s
    else FoldAll(Folded(s, envelopes[0]), envelopes[1..])
  }

  /** Folding a stretch of the record accepts exactly its unseen end. */
  lemma {:induction false} FoldStretch<E>(s: State<E>, record: seq<Envelope<E>>, from: nat, upto: nat)
    requires from <= upto <= |record| && Numbered(record)
    ensures var start, t := Max(from, Need(s.last)), FoldAll(s, record[from..upto]);
            && (start < upto ==> t == s.(last := Some(upto - 1), folded := s.folded + record[start..upto]))
            && (upto <= start ==> t == s)
    decreases upto - from
  {
    if from < upto {
      var rest := record[from..upto];
      assert rest[0] == record[from] && rest[1..] == record[from + 1..upto];
      FoldStretch(Folded(s, record[from]), record, from + 1, upto);
    }
  }

  /** Folding everything from `from` on leaves the fold at the end of the record. */
  lemma FoldTail<E>(s: State<E>, record: seq<Envelope<E>>, from: nat)
    requires from <= |record| && Need(s.last) <= |record| && Numbered(record)
    ensures FoldAll(s, record[from..]) ==
            if Max(from, Need(s.last)) == |record| then s
            else s.(last := Some(|record| - 1), folded := s.folded + record[Max(from, Need(s.last))..])
  {
    assert record[from..|record|] == record[from..];
    var start := Max(from, Need(s.last));
    assert record[start..|record|] == record[start..];
    FoldStretch(s, record, from, |record|);
  }

  /**
   One turn of the receive loop. A lagged observer reads the replay buffer after
   the notice, by when the record may have grown to `later`.
  */
  function ReceiveLate<E>(s: State<E>, record: seq<Envelope<E>>, later: seq<Envelope<E>>): State<E> {
    match Poll(record, s.at)
    case Empty => s
    case Message(envelope) => Folded(s.(at := s.at + 1), envelope)
    case Lagged(resumeAt) =>
      var replay := Replay(later, s.last);
      FoldAll(s.(at := resumeAt), if replay.Some? then replay.value else [])
  }

  /** One turn with no emission inside it. */
  function Receive<E>(s: State<E>, record: seq<Envelope<E>>): State<E> {
    ReceiveLate(s, record, record)
  }

  /** Everything below the horizon was either folded or is lost for good. */
  function Horizon<E>(s: State<E>): nat {
    Max(s.at, Need(s.last))
  }

  /** True when the receiver lagged so far that the fold's next event has left the replay buffer too. */
  predicate Outrun<E>(s: State<E>, record: seq<Envelope<E>>) {
    s.at < Oldest(|record|) && Need(s.last) < Oldest(|record|)
  }

  /** What one turn loses: nothing unless it is outrun, and then what the ring no longer held. */
  ghost function Loses<E>(s: State<E>, record: seq<Envelope<E>>, later: seq<Envelope<E>>): set<nat> {
    if Outrun(s, record)
    then Range(Horizon(s), if s.last.None? then Oldest(|later|) else Oldest(|record|)) else {}
  }

  ghost predicate Accounted<E>(s: State<E>, record: seq<Envelope<E>>, start: nat, lost: set<nat>) {
    && Numbered(record)
    && s.at <= |record|
    && start <= Horizon(s) <= |record|
    && (forall n :: n in lost ==> start <= n < Horizon(s))
    && s.folded == Picked(record, start, Horizon(s), lost)
  }

  /** Subscribing first and snapshotting afterwards leaves no event that reaches nobody. */
  lemma SubscribeThenSnapshot<E>(subscribedAt: nat, record: seq<Envelope<E>>)
    requires Numbered(record) && subscribedAt <= |record|
    ensures var s := FoldAll(State(subscribedAt, None, []), Replay(record, None).value);
            && Accounted(s, record, Oldest(|record|), {})
            && Horizon(s) == |record|
  {
    var n, o := |record|, Oldest(|record|);
    FoldTail(State(subscribedAt, None, []), record, o);
    PickedAll(record, o, n, {});
    assert record[o..n] == record[o..];
  }

  /** A record that has only grown. */
  ghost predicate Grows<E>(record: seq<Envelope<E>>, later: seq<Envelope<E>>) {
    record <= later && Numbered(later)
  }

  lemma GrowthKeepsAccounted<E>(
    s: State<E>, record: seq<Envelope<E>>, later: seq<Envelope<E>>, start: nat, lost: set<nat>)
    requires Accounted(s, record, start, lost) && Grows(record, later)
    ensures Accounted(s, later, start, lost)
  {
    PickedAgrees(record, later, start, Horizon(s), lost, lost);
  }

  /** What a lag does: the replay closes the hole, or is refused and the hole stays. */
  lemma LagExact<E>(s: State<E>, record: seq<Envelope<E>>, later: seq<Envelope<E>>)
    requires Grows(record, later) && s.at < Oldest(|record|) && Need(s.last) <= |record|
    ensures var n, o, need := |later|, Oldest(|later|), Need(s.last);
            ReceiveLate(s, record, later) ==
              if (s.last.Some? && need < o) || need == n then s.(at := Oldest(|record|))
              else State(Oldest(|record|), Some(n - 1), s.folded + later[Max(need, o)..])
  {
    var o, need := Oldest(|later|), Need(s.last);
    if s.last.None? || need >= o {
      FoldTail(s.(at := Oldest(|record|)), later, if s.last.None? then o else need);
    }
  }

  /** Moving the horizon past a lost stretch and a folded one keeps the account. */
  lemma AccountMoves<E>(s: State<E>, t: State<E>, record: seq<Envelope<E>>, start: nat, lost: set<nat>, mid: nat)
    requires Accounted(s, record, start, lost)
    requires t.at <= |record| && Horizon(s) <= mid <= Horizon(t) <= |record|
    requires t.folded == s.folded + record[mid..Horizon(t)]
    ensures Accounted(t, record, start, lost + Range(Horizon(s), mid))
  {
    Extend(record, start, Horizon(s), mid, Horizon(t), lost, Range(Horizon(s), mid));
  }

  lemma MessageTurn<E>(s: State<E>, record: seq<Envelope<E>>, start: nat, lost: set<nat>)
    requires Accounted(s, record, start, lost) && Poll(record, s.at).Message?
    ensures Accounted(Receive(s, record), record, start, lost)
  {
    AccountMoves(s, Receive(s, record), record, start, lost, Horizon(s));
    assert lost + {} == lost;
  }

  /** How far the lost stretch of a lagging turn extends. */
  function LostUpTo<E>(s: State<E>, record: seq<Envelope<E>>, later: seq<Envelope<E>>): nat {
    if !Outrun(s, record) then Horizon(s)
    else if s.last.None? then Oldest(|later|) else Oldest(|record|)
  }

  lemma LagFolds<E>(s: State<E>, record: seq<Envelope<E>>, later: seq<Envelope<E>>)
    requires Grows(record, later) && s.at < Oldest(|record|) && Horizon(s) <= |record|
    ensures var t, mid := ReceiveLate(s, record, later), LostUpTo(s, record, later);
            && t.at <= |later| && Horizon(s) <= mid <= Horizon(t) <= |later|
            && t.folded == s.folded + later[mid..Horizon(t)]
  {
    LagExact(s, record, later);
    var mid := LostUpTo(s, record, later);
    assert later[mid..|later|] == later[mid..] && later[mid..mid] == [];
  }

  lemma LagTurn<E>(s: State<E>, record: seq<Envelope<E>>, later: seq<Envelope<E>>, start: nat, lost: set<nat>)
    requires Accounted(s, record, start, lost) && Poll(record, s.at).Lagged? && Grows(record, later)
    ensures Accounted(ReceiveLate(s, record, later), later, start, lost + Loses(s, record, later))
    ensures s.folded <= ReceiveLate(s, record, later).folded
  {
    GrowthKeepsAccounted(s, record, later, start, lost);
    LagFolds(s, record, later);
    AccountMoves(s, ReceiveLate(s, record, later), later, start, lost, LostUpTo(s, record, later));
    assert Loses(s, record, later) == Range(Horizon(s), LostUpTo(s, record, later));
  }

  /** One turn of the loop, in any state: nothing is folded twice, and `Loses` is exactly what goes missing. */
  lemma ReceiveKeepsAccounted<E>(
    s: State<E>, record: seq<Envelope<E>>, later: seq<Envelope<E>>, start: nat, lost: set<nat>)
    requires Accounted(s, record, start, lost) && Grows(record, later)
    ensures Accounted(ReceiveLate(s, record, later), later, start, lost + Loses(s, record, later))
    ensures s.folded <= ReceiveLate(s, record, later).folded
    ensures Loses(s, record, later) != {} <==> Outrun(s, record)
    ensures Loses(s, record, later) !! lost
  {
    if Outrun(s, record) {
      assert Horizon(s) in Loses(s, record, later);
    } else {
      assert lost + {} == lost;
    }
    match Poll(record, s.at)
    case Empty => GrowthKeepsAccounted(s, record, later, start, lost);
    case Message(_) =>
      MessageTurn(s, record, start, lost);
      GrowthKeepsAccounted(Receive(s, record), record, later, start, lost);
    case Lagged(_) => LagTurn(s, record, later, start, lost);
  }

  /** `meanwhile` is emitted during the turn, between a lag notice and the replay it leads to. */
  datatype Step<+E> = AgentEmits(event: E) | ObserverReceives(meanwhile: seq<E>)

  function AppendedAll<E>(record: seq<Envelope<E>>, events: seq<E>): seq<Envelope<E>>
    decreases |events|
  {
    if events == [] then record else AppendedAll(Appended(record, events[0]), events[1..])
  }

  lemma {:induction false} AppendingGrows<E>(record: seq<Envelope<E>>, events: seq<E>)
    requires Numbered(record)
    ensures Grows(record, AppendedAll(record, events)) && |AppendedAll(record, events)| == |record| + |events|
    decreases |events|
  {
    if events != [] {
      AppendingGrows(Appended(record, events[0]), events[1..]);
    }
  }

  /** An observer and the record it reads, after any interleaving of steps. */
  function Run<E>(s: State<E>, record: seq<Envelope<E>>, steps: seq<Step<E>>): (State<E>, seq<Envelope<E>>)
    decreases |steps|
  {
    if steps == [] then (s, record)
    else match steps[0]
      case AgentEmits(event) => Run(s, Appended(record, event), steps[1..])
      case ObserverReceives(meanwhile) =>
        var later := AppendedAll(record, meanwhile);
        Run(ReceiveLate(s, record, later), later, steps[1..])
  }

  /** True when no lag met on the way outran the replay buffer. */
  predicate NeverOutrun<E>(s: State<E>, record: seq<Envelope<E>>, steps: seq<Step<E>>)
    decreases |steps|
  {
    steps == [] ||
    match steps[0]
    case AgentEmits(event) => NeverOutrun(s, Appended(record, event), steps[1..])
    case ObserverReceives(meanwhile) =>
      var later := AppendedAll(record, meanwhile);
      !Outrun(s, record) && NeverOutrun(ReceiveLate(s, record, later), later, steps[1..])
  }

  /**
   Every interleaving of emissions and receive turns. What the observer folded
   is the record from `start` to its horizon with the returned gaps removed, and
   a gap is added exactly when some lag outran the replay buffer.
  */
  lemma {:induction false} EveryInterleaving<E>(
    s: State<E>, record: seq<Envelope<E>>, start: nat, lost: set<nat>, steps: seq<Step<E>>)
    returns (gaps: set<nat>)
    requires Accounted(s, record, start, lost)
    ensures var (t, record') := Run(s, record, steps);
            && Accounted(t, record', start, gaps)
            && record <= record'
            && s.folded <= t.folded
    ensures lost <= gaps
    ensures gaps == lost <==> NeverOutrun(s, record, steps)
    decreases |steps|
  {
    if steps == [] {
      return lost;
    }
    match steps[0]
    case AgentEmits(event) =>
      GrowthKeepsAccounted(s, record, Appended(record, event), start, lost);
      gaps := EveryInterleaving(s, Appended(record, event), start, lost, steps[1..]);
    case ObserverReceives(meanwhile) =>
      var later := AppendedAll(record, meanwhile);
      var gone := Loses(s, record, later);
      AppendingGrows(record, meanwhile);
      ReceiveKeepsAccounted(s, record, later, start, lost);
      gaps := EveryInterleaving(ReceiveLate(s, record, later), later, start, lost + gone, steps[1..]);
      if gone != {} {
        var n :| n in gone;
        assert n in gaps && n !in lost;
      } else {
        assert lost + gone == lost;
      }
  }

  /**
   The whole life of a follower: it subscribes, snapshots and then interleaves
   with the agent. Unless it is outrun, it has folded exactly the record from
   the oldest event of its snapshot to its newest.
  */
  lemma FollowerIsGapless<E>(subscribedAt: nat, record: seq<Envelope<E>>, steps: seq<Step<E>>)
    requires Numbered(record) && subscribedAt <= |record|
    ensures var s := FoldAll(State(subscribedAt, None, []), Replay(record, None).value);
            var (t, record') := Run(s, record, steps);
            && Horizon(t) <= |record'|
            && Oldest(|record|) <= Horizon(t)
            && (t.folded == record'[Oldest(|record|)..Horizon(t)] <==> NeverOutrun(s, record, steps))
  {
    var o := Oldest(|record|);
    var s := FoldAll(State(subscribedAt, None, []), Replay(record, None).value);
    SubscribeThenSnapshot(subscribedAt, record);
    var gaps := EveryInterleaving(s, record, o, {}, steps);
    var (t, record') := Run(s, record, steps);
    GaplessIff(record', o, Horizon(t), gaps);
  }

  /**
   The channel and the replay buffer have the same capacity. So a receiver that
   lags while the fold is not ahead of it has already outrun the buffer too, and
   the event it stood at is lost. If it has folded anything its replay is refused;
   if not, it is given the ring as it stands and never told what came before.
  */
  lemma EqualCapacitiesLoseEvents<E>(s: State<E>, record: seq<Envelope<E>>)
    requires Numbered(record) && Poll(record, s.at).Lagged? && Need(s.last) <= s.at
    ensures Outrun(s, record) && s.at in Loses(s, record, record)
    ensures s.last.Some? ==> Replay(record, s.last).None? && Receive(s, record) == s.(at := Oldest(|record|))
    ensures s.last.None? ==>
              var o := Oldest(|record|);
              && Replay(record, s.last) == Some(record[o..])
              && Receive(s, record) == State(o, Some(|record| - 1), s.folded + record[o..])
  {
    LagExact(s, record, record);
    assert s.at in Range(Horizon(s), Oldest(|record|));
  }

  /**
   Such a follower exists: it takes one event, is overtaken by one more than the
   ring holds, and its lag recovery is refused, so event 1 is never folded.
  */
  lemma FollowerCanBeOutrun<E>(events: seq<E>)
    requires |events| == REPLAY_BUFFER + 2
    ensures var steps := [AgentEmits(events[0]), ObserverReceives(events[1..]), ObserverReceives([])];
            var (t, record) := Run(State(0, None, []), [], steps);
            && t == State(2, Some(0), [Envelope(0, events[0])])
            && |record| == REPLAY_BUFFER + 2
            && !NeverOutrun(State(0, None, []), [], steps)
  {
    var first := Appended([], events[0]);
    var all := AppendedAll(first, events[1..]);
    AppendingGrows(first, events[1..]);
    var s := State(1, Some(0), [Envelope(0, events[0])]);
    assert ReceiveLate(State(0, None, []), first, all) == s;
    var steps := [AgentEmits(events[0]), ObserverReceives(events[1..]), ObserverReceives([])];
    assert steps[1..] == [ObserverReceives(events[1..]), ObserverReceives([])];
    assert steps[1..][1..] == [ObserverReceives([])] && steps[1..][1..][1..] == [];
    EqualCapacitiesLoseEvents(s, all);
    assert Run(s, all, steps[1..][1..]) == Run(Receive(s, all), all, []);
    assert !NeverOutrun(s, all, steps[1..][1..]);
    assert !NeverOutrun(State(0, None, []), first, steps[1..]);
  }

  /** The receiver half of the channel. */
  class Receiver {
    var at: nat

    constructor (position: nat)
      ensures at == position
    {
      at := position;
    }

    method TryRecv<E>(handle: RunHandle<E>) returns (polled: Polled<E>)
      requires at <= |handle.record|
      modifies this
      ensures polled == Poll(handle.record, old(at))
      ensures at == match polled case Empty => old(at) case Message(_) => old(at) + 1 case Lagged(r) => r
      ensures at <= |handle.record|
    {
      if at == |handle.record| {
        polled := Empty;
      } else if at < Oldest(|handle.record|) {
        at := Oldest(|handle.record|);
        polled := Lagged(at);
      } else {
        polled := Message(handle.record[at]);
        at := at + 1;
      }
    }
  }

  /** The dashboard's fold, reduced to the rule that decides what it accepts. */
  class View<E> {
    var lastSeq: Option<nat>
    var folded: seq<Envelope<E>>

    constructor ()
      ensures lastSeq == None && folded == []
    {
      lastSeq, folded := None, [];
    }

    method Fold(envelope: Envelope<E>)
      modifies this
      ensures forall at :: State(at, lastSeq, folded) ==
                           Folded(State(at, old(lastSeq), old(folded)), envelope)
    {
      if lastSeq.Some? && envelope.seqNo <= lastSeq.value {
        return;
      }
      lastSeq := Some(envelope.seqNo);
      folded := folded + [envelope];
    }

    method FoldEach(envelopes: seq<Envelope<E>>)
      modifies this
      ensures Same(FoldAll(Before(old(lastSeq), old(folded)), envelopes))
    {
      ghost var s := Before(lastSeq, folded);
      for i := 0 to |envelopes|
        invariant FoldAll(Before(lastSeq, folded), envelopes[i..]) == FoldAll(s, envelopes)
      {
        assert envelopes[i..][0] == envelopes[i] && envelopes[i..][1..] == envelopes[i + 1..];
        Fold(envelopes[i]);
      }
    }

    /** The fold's state, with the receiver position left out of account. */
    ghost function Before(last: Option<nat>, had: seq<Envelope<E>>): State<E> {
      State(0, last, had)
    }

    ghost predicate Same(s: State<E>)
      reads this
    {
      lastSeq == s.last && folded == s.folded
    }
  }

  lemma {:induction false} PositionIsCarried<E>(s: State<E>, at: nat, envelopes: seq<Envelope<E>>)
    ensures FoldAll(s.(at := at), envelopes) == FoldAll(s, envelopes).(at := at)
    decreases |envelopes|
  {
    if envelopes != [] {
      PositionIsCarried(Folded(s, envelopes[0]), at, envelopes[1..]);
    }
  }

  /** One turn of the loop around `try_recv`; it reports whether the channel was empty. */
  method Turn<E>(events: Receiver, handle: RunHandle<E>, view: View<E>) returns (empty: bool)
    requires handle.Valid() && events.at <= |handle.record|
    requires view.lastSeq.Some? ==> view.lastSeq.value <= U64_MAX
    modifies events, view
    ensures State(events.at, view.lastSeq, view.folded) ==
            Receive(State(old(events.at), old(view.lastSeq), old(view.folded)), handle.record)
    ensures empty <==> Poll(handle.record, old(events.at)).Empty?
  {
    ghost var s := State(events.at, view.lastSeq, view.folded);
    var polled := events.TryRecv(handle);
    empty := polled.Empty?;
    match polled
    case Empty =>
    case Message(envelope) =>
      view.Fold(envelope);
    case Lagged(_) =>
      var replay := handle.EventsSince(view.lastSeq);
      var envelopes := if replay.Some? then replay.value else [];
      view.FoldEach(envelopes);
      PositionIsCarried(s, events.at, envelopes);
      PositionIsCarried(s, 0, envelopes);
  }

  /**
   Folds everything available now. With no emission in between, it returns with
   the newest event folded. What it added is one contiguous stretch ending
   there, and the only numbers it passed over are those below the ring's oldest.
  */
  method Drain<E>(events: Receiver, handle: RunHandle<E>, view: View<E>)
    requires handle.Valid()
    requires events.at <= Need(view.lastSeq) <= |handle.record|
    modifies events, view
    ensures events.at == |handle.record| == Need(view.lastSeq)
    ensures var need := Need(old(view.lastSeq));
            var from := if old(events.at) < Oldest(|handle.record|) then Max(need, Oldest(|handle.record|)) else need;
            view.folded == old(view.folded) + handle.record[from..]
  {
    ghost var record := handle.record;
    ghost var n, o, need, at0, had := |record|, Oldest(|record|), Need(view.lastSeq), events.at, view.folded;
    ghost var from := if at0 < o then Max(need, o) else need;
    assert at0 >= o ==> had + record[from..need] == had;
    var empty := false;
    while !empty
      invariant handle.record == record && at0 <= events.at <= n
      invariant DrainState(State(events.at, view.lastSeq, view.folded), record, had, from, at0)
      invariant empty ==> events.at == n
      decreases !empty, n - events.at
    {
      DrainStep(State(events.at, view.lastSeq, view.folded), record, had, from, at0);
      empty := Turn(events, handle, view);
    }
    DrainEnd(State(events.at, view.lastSeq, view.folded), record, had, from, at0);
  }

  /** Mid-drain: the horizon is where the folded stretch ends. */
  ghost predicate Drained<E>(s: State<E>, record: seq<Envelope<E>>, had: seq<Envelope<E>>, from: nat) {
    && Oldest(|record|) <= s.at <= |record|
    && Need(s.last) <= |record|
    && from <= Horizon(s)
    && (Need(s.last) < s.at ==> s.at == from == Oldest(|record|) < |record|)
    && s.folded == had + record[from..Horizon(s)]
  }

  /** At the loop head: either nothing has happened yet and a lag is due, or the receiver is inside the ring. */
  ghost predicate DrainState<E>(
    s: State<E>, record: seq<Envelope<E>>, had: seq<Envelope<E>>, from: nat, at0: nat)
  {
    if s.at < Oldest(|record|) then
      s.at == at0 <= Need(s.last) <= |record| && s.folded == had && from == Max(Need(s.last), Oldest(|record|))
    else
      Drained(s, record, had, from)
  }

  lemma DrainEnd<E>(s: State<E>, record: seq<Envelope<E>>, had: seq<Envelope<E>>, from: nat, at0: nat)
    requires DrainState(s, record, had, from, at0) && s.at == |record|
    ensures Need(s.last) == |record| && from <= |record| && s.folded == had + record[from..]
  {
    assert record[from..|record|] == record[from..];
  }

  lemma DrainMessage<E>(s: State<E>, record: seq<Envelope<E>>, had: seq<Envelope<E>>, from: nat)
    requires Numbered(record) && Drained(s, record, had, from) && s.at < |record|
    ensures Drained(Receive(s, record), record, had, from) && s.at < Receive(s, record).at
  {
    var h := Horizon(s);
    if Need(s.last) <= s.at {
      assert record[from..h + 1] == record[from..h] + [record[h]];
    }
  }

  lemma DrainStep<E>(s: State<E>, record: seq<Envelope<E>>, had: seq<Envelope<E>>, from: nat, at0: nat)
    requires Numbered(record) && DrainState(s, record, had, from, at0)
    ensures s.at <= |record| ==> Drained(Receive(s, record), record, had, from)
    ensures s.at < |record| ==> s.at < Receive(s, record).at
  {
    if s.at < Oldest(|record|) {
      LagExact(s, record, record);
      assert record[from..|record|] == record[from..];
    } else if s.at < |record| {
      DrainMessage(s, record, had, from);
    }
  }
}
