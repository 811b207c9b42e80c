/**
 The browser's intake of the stream: events are pooled and dispatched to the
 reducer in batches, on a timer, on a full pool or on a terminal event.
*/
module StreamClient {
  import opened RunView

  /** A pool this large is flushed at once, whatever the timer is doing. */
  const MAX_PENDING: nat := 250

  datatype Queue = Queue(pending: seq<Wire>, timer: bool, view: View)

  function Flushed(q: Queue): Queue {
    Queue([], false, FoldBatch(q.view, q.pending))
  }

  function Handled(q: Queue, event: Wire): Queue {
    var pooled := q.(pending := q.pending + [event]);
    if event.event.IsStreamTerminal() || |pooled.pending| >= MAX_PENDING then Flushed(pooled)
    else pooled.(timer := true)
  }

  const Opened: Queue := Queue([], false, FRESH)

  /** Dispatched batches followed by the pool are what was received, and a pooled event has a flush due. */
  ghost predicate QueueInv(q: Queue, received: seq<Wire>) {
    && |q.pending| < MAX_PENDING
    && |q.pending| <= |received|
    && q.pending == received[|received| - |q.pending|..]
    && q.view == FoldBatch(FRESH, received[..|received| - |q.pending|])
    && (q.pending != [] ==> q.timer)
  }

  lemma PoolFollowsDispatched<T>(received: seq<T>, pending: seq<T>)
    requires |pending| <= |received| && pending == received[|received| - |pending|..]
    ensures received[..|received| - |pending|] + pending == received
  {
  }

  /** Two dispatches in a row are one, so the view after a flush is the fold of everything received. */
  lemma DispatchesJoin(view: View, dispatched: seq<Wire>, pending: seq<Wire>, received: seq<Wire>)
    requires dispatched + pending == received && view == FoldBatch(FRESH, dispatched)
    ensures FoldBatch(view, pending) == FoldBatch(FRESH, received)
  {
    BatchingIsInvisible(FRESH, dispatched, pending);
  }

  lemma EmptyPool(view: View, received: seq<Wire>)
    requires view == FoldBatch(FRESH, received)
    ensures QueueInv(Queue([], false, view), received)
  {
    assert received[..|received| - 0] == received;
  }

  lemma FlushKeepsQueue(q: Queue, received: seq<Wire>)
    requires |q.pending| <= |received|
    requires q.pending == received[|received| - |q.pending|..]
    requires q.view == FoldBatch(FRESH, received[..|received| - |q.pending|])
    ensures QueueInv(Flushed(q), received) && Flushed(q).view == FoldBatch(FRESH, received)
  {
    var view := FoldBatch(q.view, q.pending);
    assert view == FoldBatch(FRESH, received) by {
      PoolFollowsDispatched(received, q.pending);
      DispatchesJoin(q.view, received[..|received| - |q.pending|], q.pending, received);
    }
    EmptyPool(view, received);
    assert Flushed(q) == Queue([], false, view);
  }

  lemma HandleKeepsQueue(q: Queue, received: seq<Wire>, event: Wire)
    requires QueueInv(q, received)
    ensures QueueInv(Handled(q, event), received + [event])
    ensures event.event.IsStreamTerminal() ==> Handled(q, event).view == FoldBatch(FRESH, received + [event])
  {
    var received' := received + [event];
    var pooled := q.(pending := q.pending + [event]);
    var k := |received| - |q.pending|;
    assert received'[..k] == received[..k];
    assert pooled.pending == received'[k..];
    if event.event.IsStreamTerminal() || |pooled.pending| >= MAX_PENDING {
      FlushKeepsQueue(pooled, received');
    }
  }

  /** One browser tab: the refs the hook keeps and the view it renders. */
  class Stream {
    var hasSource: bool
    var pending: seq<Wire>
    var timer: bool
    var view: View

    ghost function Model(): Queue
      reads this
    {
      Queue(pending, timer, view)
    }

    constructor ()
      ensures !hasSource && Model() == Opened
    {
      hasSource, pending, timer, view := false, [], false, FRESH;
    }

    method Flush()
      modifies this
      ensures Model() == Flushed(old(Model())) && hasSource == old(hasSource)
    {
      timer := false;
      if |pending| == 0 {
        return;
      }
      var batch := pending;
      pending := [];
      view := Reduce(view, batch);
    }

    method Disconnect()
      modifies this
      ensures Model() == Flushed(old(Model())) && !hasSource
    {
      hasSource := false;
      Flush();
    }

    method Connect()
      modifies this
      ensures Model() == Opened && hasSource
    {
      Disconnect();
      pending := [];
      view := FRESH;
      hasSource := true;
    }

    method Handle(event: Wire)
      modifies this
      ensures Model() == Handled(old(Model()), event) && hasSource == old(hasSource)
    {
      pending := pending + [event];
      if event.event.IsStreamTerminal() {
        Flush();
        return;
      }
      if |pending| >= MAX_PENDING {
        Flush();
        return;
      }
      timer := true;
    }
  }

  datatype Tick = Receives(event: Wire) | TimerFires

  function Ticked(q: Queue, tick: Tick): Queue {
    match tick
    case Receives(event) => Handled(q, event)
    case TimerFires => Flushed(q)
  }

  function RunQueue(ticks: seq<Tick>): Queue {
    if ticks == [] then Opened
    else Ticked(RunQueue(ticks[..|ticks| - 1]), ticks[|ticks| - 1])
  }

  ghost function ReceivedIn(ticks: seq<Tick>): seq<Wire> {
    if ticks == [] then []
    else
      var before := ReceivedIn(ticks[..|ticks| - 1]);
      match ticks[|ticks| - 1]
      case Receives(event) => before + [event]
      case TimerFires => before
  }

  lemma TickKeepsQueue(q: Queue, received: seq<Wire>, tick: Tick)
    requires QueueInv(q, received)
    ensures QueueInv(Ticked(q, tick), if tick.Receives? then received + [tick.event] else received)
  {
    match tick
    case Receives(event) => HandleKeepsQueue(q, received, event);
    case TimerFires => FlushKeepsQueue(q, received);
  }

  /** Whatever the flush timing, nothing is reordered, dropped, doubled or left without a flush due. */
  lemma {:induction false} AnyFlushTiming(ticks: seq<Tick>)
    ensures QueueInv(RunQueue(ticks), ReceivedIn(ticks))
  {
    if ticks != [] {
      var before := ticks[..|ticks| - 1];
      AnyFlushTiming(before);
      TickKeepsQueue(RunQueue(before), ReceivedIn(before), ticks[|ticks| - 1]);
    }
  }

  /**
   The view equals a one-at-a-time fold of what was dispatched, with its rings
   holding the newest lines and points.
  */
  lemma QueueViewIsHistory(q: Queue, received: seq<Wire>)
    requires QueueInv(q, received) && Increasing(received)
    ensures History(q.view, received[..|received| - |q.pending|])
  {
    ViewIsHistory(received[..|received| - |q.pending|]);
  }
}
