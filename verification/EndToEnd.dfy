/**
 Agent, event-stream server and browser as one step system. A step that is not
 enabled leaves the state alone, so every sequence of steps is a run and every
 interleaving is one of them. Other clients only read the agent's log, so one
 client stands for any number.
*/
module EndToEnd {
  import opened Prelude
  import opened RunLog
  import opened RunEvents
  import opened RunView
  import opened StreamClient
  import opened Coverage

  /**
   The server's side of one response. `wire` is sent and not yet received;
   `rx` is the receiver's position; `skipped` remembers what lags passed over.
  */
  datatype Connection =
    | Closed
    | Requested
    | Subscribed(at: nat)
    | Streaming(wire: seq<Wire>, backlog: seq<Wire>, highest: Option<nat>, rx: nat, live: bool, skipped: set<nat>)

  datatype System = System(
    log: Log<Event>,
    resident: bool,            // the manager still holds the run's handle
    disk: Option<seq<Wire>>,   // events.ndjson
    conn: Connection,
    lastId: Option<nat>,       // the EventSource's last event id
    queue: Queue,
    // history
    received: seq<Wire>,       // everything this EventSource delivered
    start: nat,                // where its first reply began
    missing: set<nat>,         // numbers its deliveries jumped over
    lagged: set<nat>)          // numbers the server's lags skipped

  datatype Step =
    | Emit(event: Event)
    | WriteLog
    | Evict
    | Open
    | Subscribe
    | Snapshot
    | ReplayFromDisk
    | Send
    | Lag
    | Deliver
    | Timer
    | Drop
    | Close

  const INIT: System := System(EmptyLog(), true, None, Closed, None, Opened, [], 0, {}, {})

  /** The first number the client still needs. */
  function Needed(s: System): nat {
    if s.lastId.None? then s.start else s.lastId.value + 1
  }

  /** One past the newest event of the backlog: the live stream drops anything below it. */
  function Above(highest: Option<nat>): nat {
    if highest.None? then 0 else highest.value + 1
  }

  /** The stored log's replay: every record newer than the client's position. */
  function Unseen(stored: seq<Wire>, last: Option<nat>): seq<Wire> {
    if stored == [] then []
    else (if last.None? || stored[0].seqNo > last.value then [stored[0]] else []) + Unseen(stored[1..], last)
  }

  function Begin(s: System, backlog: seq<Wire>, rx: nat, live: bool, first: nat): System {
    s.(conn := Streaming([], backlog, HighestOf(backlog), rx, live, {}),
       start := if s.lastId.None? then first else s.start)
  }

  /** The backlog goes first; a live event at or below its newest number is dropped. */
  function Sent(c: Connection, record: seq<Wire>): Connection
    requires c.Streaming?
  {
    if c.backlog != [] then c.(wire := c.wire + [c.backlog[0]], backlog := c.backlog[1..])
    else if !c.live then c
    else
      match Poll(record, c.rx)
      case Message(envelope) =>
        var stale := c.highest.Some? && envelope.seqNo <= c.highest.value;
        c.(wire := if stale then c.wire else c.wire + [envelope], rx := c.rx + 1)
      case _ => c
  }

  /** The numbers a lag notice passes over; none unless one is due. */
  ghost function Gone(c: Connection, record: seq<Wire>): set<nat>
    requires c.Streaming?
  {
    if c.backlog == [] && c.live && Poll(record, c.rx).Lagged?
    then Range(Max(c.rx, Above(c.highest)), Poll(record, c.rx).resumeAt) else {}
  }

  /** The notice is filtered out and the stream goes on from the oldest event held. */
  ghost function Skipped(c: Connection, record: seq<Wire>): Connection
    requires c.Streaming?
  {
    if c.backlog == [] && c.live && Poll(record, c.rx).Lagged?
    then c.(rx := Poll(record, c.rx).resumeAt, skipped := c.skipped + Gone(c, record)) else c
  }

  /** The first event on the wire reaches the browser, which pools or dispatches it. */
  ghost function Delivered(s: System, event: Wire, queue: Queue): System
    requires s.conn.Streaming? && s.conn.wire != []
  {
    s.(conn := s.conn.(wire := s.conn.wire[1..]),
       lastId := Some(event.seqNo),
       queue := queue,
       received := s.received + [event],
       missing := s.missing + Range(Needed(s), event.seqNo))
  }

  ghost function Apply(s: System, step: Step): System {
    match step
    case Emit(event) =>
      if s.log.next < U64_MAX then s.(log := Emitted(s.log, event)) else s
    case WriteLog => s.(disk := Some(s.log.record))
    case Evict => s.(resident := false)
    case Open =>
      s.(conn := Requested, lastId := None, queue := Opened, received := [], start := 0, missing := {}, lagged := {})
    case Subscribe =>
      if s.conn.Requested? && s.resident then s.(conn := Subscribed(|s.log.record|)) else s
    case Snapshot =>
      if !s.conn.Subscribed? then s
      else (match Since(s.log, s.lastId)
            case None => s.(conn := Closed)
            case Some(backlog) => Begin(s, backlog, s.conn.at, true, Oldest(|s.log.record|)))
    case ReplayFromDisk =>
      if !s.conn.Requested? || s.resident then s
      else (match s.disk
            case None => s.(conn := Closed)
            case Some(stored) =>
              var backlog := Unseen(stored, s.lastId);
              Begin(s, backlog, if s.lastId.None? then |stored| else Max(s.lastId.value + 1, |stored|), false, 0))
    case Send => if s.conn.Streaming? then s.(conn := Sent(s.conn, s.log.record)) else s
    case Lag =>
      if !s.conn.Streaming? then s
      else s.(conn := Skipped(s.conn, s.log.record), lagged := s.lagged + Gone(s.conn, s.log.record))
    case Deliver =>
      if s.conn.Streaming? && s.conn.wire != [] then Delivered(s, s.conn.wire[0], Handled(s.queue, s.conn.wire[0]))
      else s
    case Timer => s.(queue := Flushed(s.queue))
    case Drop => if s.conn.Closed? then s else s.(conn := Requested)
    case Close => s.(conn := Closed, queue := Flushed(s.queue))
  }

  /** The state after a sequence of steps; one that is not enabled changes nothing. */
  ghost function Run(s: System, steps: seq<Step>): System {
    if steps == [] then s
    else Apply(Run(s, steps[..|steps| - 1]), steps[|steps| - 1])
  }

  // ----- the invariant ----------------------------------------------------------

  ghost predicate AgentInv(log: Log<Event>, disk: Option<seq<Wire>>) {
    && ValidLog(log)
    && (disk.Some? ==> disk.value <= log.record)
  }

  /** What the client holds is the record from `start` to its position, less numbers that lags skipped. */
  ghost predicate HeldInv(
    record: seq<Wire>, received: seq<Wire>, lastId: Option<nat>, start: nat, missing: set<nat>, lagged: set<nat>)
  {
    var need := if lastId.None? then start else lastId.value + 1;
    && lastId == (if received == [] then None else Some(received[|received| - 1].seqNo))
    && start <= need <= |record|
    && received == Picked(record, start, need, missing)
    && (forall n :: n in missing ==> start <= n < need)
    && missing <= lagged
  }

  /** Everything on its way covers the client's position up to the server's, less what this response's lags skipped. */
  ghost predicate StreamInv(record: seq<Wire>, need: nat, items: seq<Wire>, highest: Option<nat>, rx: nat,
                            skipped: set<nat>)
  {
    var reach := Max(rx, Above(highest));
    && need <= reach <= |record|
    && items == Picked(record, need, reach, skipped)
    && (forall n :: n in skipped ==> n < reach && n < Oldest(|record|))
  }

  ghost predicate ConnectionInv(record: seq<Wire>, lastId: Option<nat>, start: nat, conn: Connection,
                                lagged: set<nat>)
  {
    match conn
    case Closed => true
    case Requested => true
    case Subscribed(at) => at <= |record| && (lastId.Some? ==> lastId.value < at)
    case Streaming(wire, backlog, highest, rx, _, skipped) =>
      && StreamInv(record, if lastId.None? then start else lastId.value + 1, wire + backlog, highest, rx, skipped)
      && skipped <= lagged
  }

  ghost predicate TransportInv(s: System) {
    && AgentInv(s.log, s.disk)
    && HeldInv(s.log.record, s.received, s.lastId, s.start, s.missing, s.lagged)
    && ConnectionInv(s.log.record, s.lastId, s.start, s.conn, s.lagged)
  }

  ghost predicate Inv(s: System) {
    TransportInv(s) && QueueInv(s.queue, s.received)
  }

  lemma EmitKeepsAgent(log: Log<Event>, disk: Option<seq<Wire>>, event: Event)
    requires AgentInv(log, disk) && log.next < U64_MAX
    ensures AgentInv(Emitted(log, event), disk)
    ensures Emitted(log, event).record == Appended(log.record, event)
  {
    EmittedKeepsValid(log, event);
  }

  /** A longer record changes nothing about what is held or on its way. */
  lemma EmitKeepsClient(s: System, event: Event)
    requires HeldInv(s.log.record, s.received, s.lastId, s.start, s.missing, s.lagged)
    requires ConnectionInv(s.log.record, s.lastId, s.start, s.conn, s.lagged)
    ensures var record' := Appended(s.log.record, event);
            && HeldInv(record', s.received, s.lastId, s.start, s.missing, s.lagged)
            && ConnectionInv(record', s.lastId, s.start, s.conn, s.lagged)
  {
    var record, record' := s.log.record, Appended(s.log.record, event);
    PickedAgrees(record, record', s.start, Needed(s), s.missing, s.missing);
    if s.conn.Streaming? {
      var reach := Max(s.conn.rx, Above(s.conn.highest));
      PickedAgrees(record, record', Needed(s), reach, s.conn.skipped, s.conn.skipped);
    }
  }

  function HighestOf(backlog: seq<Wire>): Option<nat> {
    if backlog == [] then None else Some(backlog[|backlog| - 1].seqNo)
  }

  lemma BeginCovers(record: seq<Wire>, need: nat, backlog: seq<Wire>, rx: nat)
    requires var reach := Max(rx, Above(HighestOf(backlog)));
             need <= reach <= |record| && backlog == record[need..reach]
    ensures StreamInv(record, need, [] + backlog, HighestOf(backlog), rx, {})
  {
    PickedAll(record, need, Max(rx, Above(HighestOf(backlog))), {});
    assert [] + backlog == backlog;
  }

  lemma BeginHolds(record: seq<Wire>, received: seq<Wire>, lastId: Option<nat>, start: nat, missing: set<nat>,
                   lagged: set<nat>, first: nat)
    requires HeldInv(record, received, lastId, start, missing, lagged) && first <= |record|
    ensures HeldInv(record, received, lastId, if lastId.None? then first else start, missing, lagged)
  {
    if lastId.None? {
      assert received == [] && missing == {};
      PickedNone(record, first, first, {});
    }
  }

  /** A response that begins by sending the record from the client's position on has nothing missing. */
  lemma BeginKeepsTransport(s: System, backlog: seq<Wire>, rx: nat, live: bool, first: nat)
    requires TransportInv(s) && first <= |s.log.record|
    requires var need := if s.lastId.None? then first else Needed(s);
             var reach := Max(rx, Above(HighestOf(backlog)));
             need <= reach <= |s.log.record| && backlog == s.log.record[need..reach]
    ensures TransportInv(Begin(s, backlog, rx, live, first))
  {
    BeginHolds(s.log.record, s.received, s.lastId, s.start, s.missing, s.lagged, first);
    BeginCovers(s.log.record, if s.lastId.None? then first else Needed(s), backlog, rx);
  }

  lemma HighestInRecord(record: seq<Wire>, from: nat, upto: nat)
    requires Numbered(record) && from <= upto <= |record|
    ensures Above(HighestOf(record[from..upto])) == if from < upto then upto else 0
  {
    if from < upto {
      assert record[from..upto][upto - from - 1] == record[upto - 1];
    }
  }

  /** The reply to a request: refused, or the record from the client's position to now. */
  lemma SnapshotReply(record: seq<Wire>, lastId: Option<nat>, at: nat)
    requires Numbered(record) && at <= |record|
    requires lastId.Some? ==> lastId.value < at
    ensures var n := |record|;
            var need := if lastId.None? then Oldest(n) else lastId.value + 1;
            var reply := Replay(record, lastId);
            && need <= n
            && (reply.Some? ==> reply.value == record[need..n] && Max(at, Above(HighestOf(reply.value))) == n)
  {
    var n := |record|;
    var need := if lastId.None? then Oldest(n) else lastId.value + 1;
    HighestInRecord(record, need, n);
    assert record[need..n] == record[need..];
  }

  /** What the snapshot makes of the request, stated on the complete record. */
  lemma SnapshotOutcome(s: System)
    requires AgentInv(s.log, s.disk) && s.conn.Subscribed?
    requires s.lastId.Some? ==> s.lastId.value < |s.log.record|
    ensures Apply(s, Snapshot) ==
            match Replay(s.log.record, s.lastId)
            case None => s.(conn := Closed)
            case Some(backlog) => Begin(s, backlog, s.conn.at, true, Oldest(|s.log.record|))
  {
    SinceIsReplay(s.log, s.lastId);
  }

  lemma SnapshotKeepsTransport(s: System)
    requires TransportInv(s) && s.conn.Subscribed?
    ensures TransportInv(Apply(s, Snapshot))
    ensures Apply(s, Snapshot).conn.Closed? <==> s.lastId.Some? && Needed(s) < Oldest(|s.log.record|)
  {
    SnapshotOutcome(s);
    SnapshotReply(s.log.record, s.lastId, s.conn.at);
    var reply := Replay(s.log.record, s.lastId);
    if reply.Some? {
      BeginKeepsTransport(s, reply.value, s.conn.at, true, Oldest(|s.log.record|));
    }
  }

  lemma {:induction false} UnseenIsTail(stored: seq<Wire>, last: Option<nat>, from: nat)
    requires forall i :: 0 <= i < |stored| ==> stored[i].seqNo == from + i
    ensures var k := if last.None? then 0 else Min(Max(last.value + 1 - from, 0), |stored|);
            Unseen(stored, last) == stored[k..]
    decreases |stored|
  {
    if stored != [] {
      UnseenIsTail(stored[1..], last, from + 1);
    }
  }

  /** The stored log replays as the record from the client's position to where the file ends. */
  lemma DiskReply(record: seq<Wire>, stored: seq<Wire>, lastId: Option<nat>)
    requires Numbered(record) && stored <= record
    requires lastId.Some? ==> lastId.value < |record|
    ensures var need := if lastId.None? then 0 else lastId.value + 1;
            var end := Max(need, |stored|);
            && need <= end <= |record|
            && Unseen(stored, lastId) == record[need..end]
            && Max(end, Above(HighestOf(Unseen(stored, lastId)))) == end
  {
    var need := if lastId.None? then 0 else lastId.value + 1;
    UnseenIsTail(stored, lastId, 0);
    HighestInRecord(record, need, Max(need, |stored|));
  }

  lemma ReplayFromDiskKeepsTransport(s: System)
    requires TransportInv(s) && s.conn.Requested? && !s.resident && s.disk.Some?
    ensures TransportInv(Apply(s, ReplayFromDisk))
  {
    var stored := s.disk.value;
    DiskReply(s.log.record, stored, s.lastId);
    var end := if s.lastId.None? then |stored| else Max(s.lastId.value + 1, |stored|);
    BeginKeepsTransport(s, Unseen(stored, s.lastId), end, false, 0);
  }

  lemma SendLive(record: seq<Wire>, need: nat, items: seq<Wire>, highest: Option<nat>, rx: nat, skipped: set<nat>)
    requires StreamInv(record, need, items, highest, rx, skipped) && rx < |record|
    ensures StreamInv(
              record, need, if rx < Above(highest) then items else items + [record[rx]], highest, rx + 1, skipped)
  {
    if rx >= Above(highest) {
      Extend(record, need, rx, rx, rx + 1, skipped, {});
      assert skipped + {} == skipped;
      assert record[rx..rx + 1] == [record[rx]];
    }
  }

  /** What is on its way over a response covers the client's position up to the server's. */
  ghost predicate Covers(c: Connection, record: seq<Wire>, need: nat)
    requires c.Streaming?
  {
    StreamInv(record, need, c.wire + c.backlog, c.highest, c.rx, c.skipped)
  }

  lemma MoveOne<T>(a: seq<T>, b: seq<T>)
    requires b != []
    ensures (a + [b[0]]) + b[1..] == a + b
  {
  }

  lemma NothingAfter<T>(a: seq<T>)
    ensures a + [] == a
  {
  }

  lemma SendBacklogCovers(c: Connection, record: seq<Wire>, need: nat)
    requires c.Streaming? && c.backlog != [] && Covers(c, record, need)
    ensures Covers(Sent(c, record), record, need)
  {
    MoveOne(c.wire, c.backlog);
  }

  /** Without a backlog only the wire counts. */
  lemma OnlyWire(c: Connection, record: seq<Wire>, need: nat)
    requires c.Streaming? && c.backlog == []
    ensures Covers(c, record, need) <==> StreamInv(record, need, c.wire, c.highest, c.rx, c.skipped)
  {
    NothingAfter(c.wire);
  }

  /** The connection after sending, or dropping, the live event it stands at. */
  ghost function AfterLive(c: Connection, record: seq<Wire>): Connection
    requires c.Streaming? && c.rx < |record|
  {
    c.(wire := if c.rx < Above(c.highest) then c.wire else c.wire + [record[c.rx]], rx := c.rx + 1)
  }

  lemma SentLive(c: Connection, record: seq<Wire>)
    requires Numbered(record) && c.Streaming? && c.backlog == [] && c.live && Poll(record, c.rx).Message?
    ensures Sent(c, record) == AfterLive(c, record)
  {
  }

  lemma AfterLiveCovers(c: Connection, record: seq<Wire>, need: nat)
    requires Numbered(record) && c.Streaming? && c.backlog == [] && c.rx < |record|
    requires StreamInv(record, need, c.wire, c.highest, c.rx, c.skipped)
    ensures Covers(AfterLive(c, record), record, need)
  {
    var t := AfterLive(c, record);
    SendLive(record, need, c.wire, c.highest, c.rx, c.skipped);
    OnlyWire(t, record, need);
  }

  lemma SendLiveCovers(c: Connection, record: seq<Wire>, need: nat)
    requires Numbered(record) && c.Streaming? && c.backlog == [] && c.live && Poll(record, c.rx).Message?
    requires Covers(c, record, need)
    ensures Covers(Sent(c, record), record, need)
  {
    OnlyWire(c, record, need);
    AfterLiveCovers(c, record, need);
    SentLive(c, record);
  }

  lemma SendKeepsTransport(s: System)
    requires Numbered(s.log.record) && s.conn.Streaming?
    requires ConnectionInv(s.log.record, s.lastId, s.start, s.conn, s.lagged)
    ensures ConnectionInv(s.log.record, s.lastId, s.start, Apply(s, Send).conn, s.lagged)
  {
    if s.conn.backlog != [] {
      SendBacklogCovers(s.conn, s.log.record, Needed(s));
    } else if s.conn.live && Poll(s.log.record, s.conn.rx).Message? {
      SendLiveCovers(s.conn, s.log.record, Needed(s));
    }
  }

  lemma LagCovers(c: Connection, record: seq<Wire>, need: nat)
    requires c.Streaming? && Covers(c, record, need)
    ensures Covers(Skipped(c, record), record, need)
    ensures Skipped(c, record).skipped == c.skipped + Gone(c, record)
  {
    if c.backlog == [] && c.live && Poll(record, c.rx).Lagged? {
      var reach, o := Max(c.rx, Above(c.highest)), Oldest(|record|);
      var reach' := Max(o, Above(c.highest));
      Extend(record, need, reach, reach', reach', c.skipped, Range(reach, o));
    } else {
      assert c.skipped + {} == c.skipped;
    }
  }

  lemma LagKeepsTransport(s: System)
    requires TransportInv(s) && s.conn.Streaming?
    ensures TransportInv(Apply(s, Lag))
  {
    LagCovers(s.conn, s.log.record, Needed(s));
  }

  lemma HeldGrows(record: seq<Wire>, received: seq<Wire>, lastId: Option<nat>, start: nat, missing: set<nat>,
                  lagged: set<nat>, event: Wire)
    requires HeldInv(record, received, lastId, start, missing, lagged)
    requires var need := if lastId.None? then start else lastId.value + 1;
             && need <= event.seqNo < |record|
             && event == record[event.seqNo]
             && Range(need, event.seqNo) <= lagged
    ensures var need := if lastId.None? then start else lastId.value + 1;
            HeldInv(record, received + [event], Some(event.seqNo), start, missing + Range(need, event.seqNo), lagged)
  {
    var need := if lastId.None? then start else lastId.value + 1;
    Extend(record, start, need, event.seqNo, event.seqNo + 1, missing, Range(need, event.seqNo));
    assert record[event.seqNo..event.seqNo + 1] == [event];
  }

  /** A delivery jumps over a number only when a lag of the same response skipped it. */
  lemma DeliveryIsNext(record: seq<Wire>, need: nat, wire: seq<Wire>, backlog: seq<Wire>, highest: Option<nat>,
                       rx: nat, skipped: set<nat>)
    requires Numbered(record) && wire != []
    requires StreamInv(record, need, wire + backlog, highest, rx, skipped)
    ensures var event := wire[0];
            && need <= event.seqNo < |record|
            && event == record[event.seqNo]
            && Range(need, event.seqNo) <= skipped
            && StreamInv(record, event.seqNo + 1, wire[1..] + backlog, highest, rx, skipped)
  {
    PickedHead(record, need, Max(rx, Above(highest)), skipped);
    assert (wire + backlog)[0] == wire[0] && (wire + backlog)[1..] == wire[1..] + backlog;
  }

  lemma DeliverKeepsTransport(s: System)
    requires TransportInv(s) && s.conn.Streaming? && s.conn.wire != []
    ensures TransportInv(Apply(s, Deliver))
  {
    DeliveredKeepsTransport(s, Handled(s.queue, s.conn.wire[0]));
  }

  lemma DeliveredCovers(c: Connection, record: seq<Wire>, need: nat)
    requires Numbered(record) && c.Streaming? && c.wire != [] && Covers(c, record, need)
    ensures var event := c.wire[0];
            && need <= event.seqNo < |record| && event == record[event.seqNo]
            && Range(need, event.seqNo) <= c.skipped
            && Covers(c.(wire := c.wire[1..]), record, event.seqNo + 1)
  {
    DeliveryIsNext(record, need, c.wire, c.backlog, c.highest, c.rx, c.skipped);
  }

  lemma DeliveredConnection(c: Connection, record: seq<Wire>, lastId: Option<nat>, start: nat, lagged: set<nat>)
    requires Numbered(record) && c.Streaming? && c.wire != [] && ConnectionInv(record, lastId, start, c, lagged)
    ensures ConnectionInv(record, Some(c.wire[0].seqNo), start, c.(wire := c.wire[1..]), lagged)
  {
    DeliveredCovers(c, record, if lastId.None? then start else lastId.value + 1);
  }

  lemma DeliveredKeepsTransport(s: System, queue: Queue)
    requires TransportInv(s) && s.conn.Streaming? && s.conn.wire != []
    ensures TransportInv(Delivered(s, s.conn.wire[0], queue))
  {
    DeliveredConnection(s.conn, s.log.record, s.lastId, s.start, s.lagged);
    DeliveredCovers(s.conn, s.log.record, Needed(s));
    HeldGrows(s.log.record, s.received, s.lastId, s.start, s.missing, s.lagged, s.conn.wire[0]);
  }

  lemma OpenKeepsTransport(s: System)
    requires TransportInv(s)
    ensures TransportInv(Apply(s, Open))
  {
    PickedNone(s.log.record, 0, 0, {});
  }

  lemma SubscribeKeepsTransport(s: System)
    requires TransportInv(s)
    ensures TransportInv(Apply(s, Subscribe))
  {
  }

  lemma StepKeepsTransport(s: System, step: Step)
    requires TransportInv(s)
    ensures TransportInv(Apply(s, step))
  {
    match step
    case Emit(event) =>
      if s.log.next < U64_MAX {
        EmitKeepsAgent(s.log, s.disk, event);
        EmitKeepsClient(s, event);
      }
    case Open => OpenKeepsTransport(s);
    case Subscribe => SubscribeKeepsTransport(s);
    case Snapshot =>
      if s.conn.Subscribed? {
        SnapshotKeepsTransport(s);
      }
    case ReplayFromDisk =>
      if s.conn.Requested? && !s.resident && s.disk.Some? {
        ReplayFromDiskKeepsTransport(s);
      }
    case Send =>
      if s.conn.Streaming? {
        SendKeepsTransport(s);
      }
    case Lag =>
      if s.conn.Streaming? {
        LagKeepsTransport(s);
      }
    case Deliver =>
      if s.conn.Streaming? && s.conn.wire != [] {
        DeliverKeepsTransport(s);
      }
    case WriteLog =>
    case Evict =>
    case Timer =>
    case Drop =>
    case Close =>
  }

  /** Only deliveries and dispatches touch the browser's queue. */
  lemma QueueUntouched(s: System, step: Step)
    requires !step.Deliver? && !step.Timer? && !step.Open? && !step.Close?
    ensures Apply(s, step).queue == s.queue && Apply(s, step).received == s.received
  {
  }

  lemma DeliverTouches(s: System)
    requires s.conn.Streaming? && s.conn.wire != []
    ensures Apply(s, Deliver).queue == Handled(s.queue, s.conn.wire[0])
    ensures Apply(s, Deliver).received == s.received + [s.conn.wire[0]]
  {
  }

  lemma DeliverKeepsQueue(s: System)
    requires QueueInv(s.queue, s.received) && s.conn.Streaming? && s.conn.wire != []
    ensures QueueInv(Apply(s, Deliver).queue, Apply(s, Deliver).received)
  {
    DeliverTouches(s);
    HandleKeepsQueue(s.queue, s.received, s.conn.wire[0]);
  }

  lemma IdleDeliverChangesNothing(s: System)
    requires !s.conn.Streaming? || s.conn.wire == []
    ensures Apply(s, Deliver) == s
  {
  }

  lemma DispatchTouches(s: System, step: Step)
    requires step.Timer? || step.Close?
    ensures Apply(s, step).queue == Flushed(s.queue) && Apply(s, step).received == s.received
  {
  }

  lemma DispatchKeepsQueue(s: System, step: Step)
    requires QueueInv(s.queue, s.received) && (step.Timer? || step.Close?)
    ensures QueueInv(Apply(s, step).queue, Apply(s, step).received)
  {
    DispatchTouches(s, step);
    FlushKeepsQueue(s.queue, s.received);
  }

  lemma OpenTouches(s: System)
    ensures Apply(s, Open).queue == Opened && Apply(s, Open).received == []
  {
  }

  lemma OpenKeepsQueue(s: System)
    ensures QueueInv(Apply(s, Open).queue, Apply(s, Open).received)
  {
    OpenTouches(s);
    EmptyPool(FRESH, []);
  }

  lemma StepKeepsQueue(s: System, step: Step)
    requires QueueInv(s.queue, s.received)
    ensures QueueInv(Apply(s, step).queue, Apply(s, step).received)
  {
    if step == Deliver {
      if s.conn.Streaming? && s.conn.wire != [] {
        DeliverKeepsQueue(s);
      } else {
        IdleDeliverChangesNothing(s);
      }
    } else if step.Timer? || step.Close? {
      DispatchKeepsQueue(s, step);
    } else if step == Open {
      OpenKeepsQueue(s);
    } else {
      QueueUntouched(s, step);
    }
  }

  lemma {:induction false} EveryRunKeepsInv(s: System, steps: seq<Step>)
    requires Inv(s)
    ensures Inv(Run(s, steps))
    decreases |steps|
  {
    if steps != [] {
      var before := steps[..|steps| - 1];
      EveryRunKeepsInv(s, before);
      StepKeepsTransport(Run(s, before), steps[|steps| - 1]);
      StepKeepsQueue(Run(s, before), steps[|steps| - 1]);
    }
  }

  lemma InitInv()
    ensures Inv(INIT)
  {
  }

  lemma Reachable(steps: seq<Step>)
    ensures Inv(Run(INIT, steps))
  {
    InitInv();
    EveryRunKeepsInv(INIT, steps);
  }

  // ----- what every run guarantees ------------------------------------------------

  /** In order, once each, as recorded, and complete but for what lags skipped. */
  ghost predicate Ordered(s: System) {
    && Increasing(s.received)
    && (forall i :: 0 <= i < |s.received| ==>
          s.received[i].seqNo < |s.log.record| && s.received[i] == s.log.record[s.received[i].seqNo])
    && Needed(s) <= |s.log.record|
    && (forall n :: s.start <= n < Needed(s) ==> (s.log.record[n] in s.received <==> n !in s.missing))
    && s.missing <= s.lagged
  }

  lemma WhatIsHeld(s: System)
    requires TransportInv(s)
    ensures Ordered(s)
    ensures forall n :: n in s.missing ==> s.start <= n < Needed(s)
  {
    PickedMembers(s.log.record, s.start, Needed(s), s.missing);
  }

  /** The view is the one the history of what was dispatched calls for. */
  ghost predicate ShowsHistory(q: Queue, received: seq<Wire>) {
    |q.pending| <= |received| && History(q.view, received[..|received| - |q.pending|])
  }

  lemma OrderedAt(s: System)
    requires Inv(s)
    ensures Ordered(s) && ShowsHistory(s.queue, s.received)
  {
    WhatIsHeld(s);
    QueueViewIsHistory(s.queue, s.received);
  }

  /**
   Any run at all: the browser receives numbers in order and once each, every
   event as recorded, and lacks a number of its window only if a lag skipped it.
   The view is the one the history of a prefix of that calls for.
  */
  lemma EveryRunIsOrdered(steps: seq<Step>)
    ensures var s := Run(INIT, steps); Ordered(s) && ShowsHistory(s.queue, s.received)
  {
    Reachable(steps);
    OrderedAt(Run(INIT, steps));
  }

  /** The two ways a step can cost the client events: a skipping lag, or a first snapshot taken after truncation. */
  ghost predicate Costs(s: System, step: Step) {
    || (step.Lag? && Apply(s, step).lagged != s.lagged)
    || (step.Snapshot? && s.conn.Subscribed? && s.lastId.None? && s.log.truncated)
  }

  ghost predicate Costless(steps: seq<Step>) {
    steps == [] ||
    (Costless(steps[..|steps| - 1]) && !Costs(Run(INIT, steps[..|steps| - 1]), steps[|steps| - 1]))
  }

  lemma CostlessStep(s: System, step: Step)
    requires ValidLog(s.log) && s.lagged == {} && s.start == 0 && !Costs(s, step)
    ensures Apply(s, step).lagged == {} && Apply(s, step).start == 0
  {
  }

  lemma {:induction false} CostlessKeepsEverything(steps: seq<Step>)
    requires Costless(steps)
    ensures Run(INIT, steps).lagged == {} && Run(INIT, steps).start == 0
  {
    if steps != [] {
      var before := steps[..|steps| - 1];
      CostlessKeepsEverything(before);
      Reachable(before);
      CostlessStep(Run(INIT, before), steps[|steps| - 1]);
    }
  }

  lemma PrefixView(record: seq<Wire>, k: nat)
    requires Numbered(record) && k <= |record|
    ensures FoldBatch(FRESH, record[..k]).lastSeq == k - 1
  {
    assert k > 0 ==> record[..k][k - 1] == record[k - 1];
    LastSeqIsNewest(FRESH, record[..k]);
  }

  /** A client that missed nothing shows the fold of the record up to the last number it displays. */
  lemma GaplessView(record: seq<Wire>, q: Queue, received: seq<Wire>, need: nat)
    requires Numbered(record) && need <= |record| && received == record[..need]
    requires QueueInv(q, received)
    ensures 0 <= q.view.lastSeq + 1 <= need
    ensures q.view == FoldBatch(FRESH, record[..q.view.lastSeq + 1])
    ensures Flushed(q).view == FoldBatch(FRESH, record[..need])
  {
    var k := |received| - |q.pending|;
    assert received[..k] == record[..k];
    PrefixView(record, k);
    FlushKeepsQueue(q, received);
  }

  // ----- exactly when delivery is exact ---------------------------------------------

  /** The next delivery jumps over a number that a lag of this response skipped. */
  ghost predicate Jumps(s: System) {
    && s.conn.Streaming? && s.conn.wire != []
    && exists n :: n in s.conn.skipped && Needed(s) <= n < s.conn.wire[0].seqNo
  }

  /** No delivery since the client last connected from scratch jumped over a number. */
  ghost predicate NoJump(steps: seq<Step>) {
    steps == [] ||
    var before, last := steps[..|steps| - 1], steps[|steps| - 1];
    last.Open? || (NoJump(before) && !(last.Deliver? && Jumps(Run(INIT, before))))
  }

  /** The reply the client started from began at the first event. */
  ghost predicate FromTheStart(steps: seq<Step>) {
    steps == [] ||
    var before, last := steps[..|steps| - 1], steps[|steps| - 1];
    var s := Run(INIT, before);
    if last.Open? then true
    else if last.Snapshot? && s.conn.Subscribed? && s.lastId.None? then !s.log.truncated
    else if last.ReplayFromDisk? && s.conn.Requested? && !s.resident && s.disk.Some? && s.lastId.None? then true
    else FromTheStart(before)
  }

  /** A delivery leaves something missing exactly when it jumps. */
  lemma DeliverMissesExactly(s: System)
    requires TransportInv(s) && s.conn.Streaming? && s.conn.wire != []
    ensures Apply(s, Deliver).missing == s.missing + Range(Needed(s), s.conn.wire[0].seqNo)
    ensures Jumps(s) <==> exists n :: n in Apply(s, Deliver).missing && n !in s.missing
  {
    DeliveredCovers(s.conn, s.log.record, Needed(s));
    if Jumps(s) {
      var n :| n in s.conn.skipped && Needed(s) <= n < s.conn.wire[0].seqNo;
      assert n in Range(Needed(s), s.conn.wire[0].seqNo) && n !in s.missing;
    }
  }

  lemma MissingUntouched(s: System, step: Step)
    requires !step.Deliver? && !step.Open?
    ensures Apply(s, step).missing == s.missing
  {
  }

  lemma MissesStep(s: System, step: Step)
    requires TransportInv(s)
    ensures Apply(s, step).missing == {} <==> step.Open? || (s.missing == {} && !(step.Deliver? && Jumps(s)))
  {
    if step.Deliver? && s.conn.Streaming? && s.conn.wire != [] {
      DeliverMissesExactly(s);
    } else if !step.Open? && !step.Deliver? {
      MissingUntouched(s, step);
    }
  }

  /** Over every run: something is missing exactly when some delivery jumped. */
  lemma {:induction false} MissesExactly(steps: seq<Step>)
    ensures Run(INIT, steps).missing == {} <==> NoJump(steps)
  {
    if steps != [] {
      var before := steps[..|steps| - 1];
      MissesExactly(before);
      Reachable(before);
      MissesStep(Run(INIT, before), steps[|steps| - 1]);
    }
  }

  lemma StartMoves(s: System, step: Step)
    requires ValidLog(s.log)
    ensures Apply(s, step).start ==
            if step.Open? then 0
            else if step.Snapshot? && s.conn.Subscribed? && s.lastId.None? then Oldest(|s.log.record|)
            else if step.ReplayFromDisk? && s.conn.Requested? && !s.resident && s.disk.Some? && s.lastId.None? then 0
            else s.start
  {
  }

  lemma {:induction false} StartsExactly(steps: seq<Step>)
    ensures Run(INIT, steps).start == 0 <==> FromTheStart(steps)
  {
    if steps != [] {
      var before := steps[..|steps| - 1];
      StartsExactly(before);
      Reachable(before);
      StartMoves(Run(INIT, before), steps[|steps| - 1]);
    }
  }

  lemma GaplessAt(s: System)
    requires TransportInv(s)
    ensures s.start <= Needed(s) <= |s.log.record|
    ensures s.received == s.log.record[s.start..Needed(s)] <==> s.missing == {}
  {
    GaplessIff(s.log.record, s.start, Needed(s), s.missing);
  }

  /** What was received is a plain slice of the record exactly when no delivery jumped. */
  lemma GaplessExactly(steps: seq<Step>)
    ensures var s := Run(INIT, steps);
            && s.start <= Needed(s) <= |s.log.record|
            && (s.received == s.log.record[s.start..Needed(s)] <==> NoJump(steps))
  {
    Reachable(steps);
    MissesExactly(steps);
    GaplessAt(Run(INIT, steps));
  }

  /** A slice that starts later than the record is not a prefix of it. */
  lemma LateStartIsNoPrefix(record: seq<Wire>, received: seq<Wire>, start: nat, need: nat, missing: set<nat>)
    requires Numbered(record) && 0 < start <= need <= |record| && received == Picked(record, start, need, missing)
    ensures received != record[..need]
  {
    PickedMembers(record, start, need, missing);
    assert record[..need][0].seqNo == 0;
  }

  /** What was received is the record's prefix up to the newest number. */
  ghost predicate ReceivedOnce(s: System) {
    Needed(s) <= |s.log.record| && s.received == s.log.record[..Needed(s)]
  }

  /** The view is the fold of the record up to the last number shown, and up to the newest once flushed. */
  ghost predicate ShownOnce(q: Queue, record: seq<Wire>, need: nat) {
    && 0 <= q.view.lastSeq + 1 <= need <= |record|
    && q.view == FoldBatch(FRESH, record[..q.view.lastSeq + 1])
    && Flushed(q).view == FoldBatch(FRESH, record[..need])
  }

  lemma ReceivedOnceAt(s: System)
    requires TransportInv(s)
    ensures ReceivedOnce(s) <==> s.missing == {} && s.start == 0
  {
    GaplessAt(s);
    if s.start > 0 {
      LateStartIsNoPrefix(s.log.record, s.received, s.start, Needed(s), s.missing);
    } else {
      assert s.log.record[0..Needed(s)] == s.log.record[..Needed(s)];
    }
  }

  lemma ShownOnceAt(s: System)
    requires Inv(s) && ReceivedOnce(s)
    ensures ShownOnce(s.queue, s.log.record, Needed(s))
  {
    GaplessView(s.log.record, s.queue, s.received, Needed(s));
  }

  /**
   Exactly once, end to end, over every interleaving of emissions, connections,
   drops, resumes, lags and flushes. What was received is the record's prefix up
   to the newest number exactly when the first reply began at the first event and
   no delivery jumped over a number a lag had skipped. Then the view is the fold
   of the record up to the last number shown.
  */
  lemma ExactlyOnce(steps: seq<Step>)
    ensures var s := Run(INIT, steps);
            && (ReceivedOnce(s) <==> NoJump(steps) && FromTheStart(steps))
            && (ReceivedOnce(s) ==> ShownOnce(s.queue, s.log.record, Needed(s)))
  {
    var s := Run(INIT, steps);
    Reachable(steps);
    MissesExactly(steps);
    StartsExactly(steps);
    ReceivedOnceAt(s);
    if ReceivedOnce(s) {
      ShownOnceAt(s);
    }
  }

  /** In particular when no lag skips anything and the first snapshot precedes truncation. */
  lemma UndisturbedRunsAreExact(steps: seq<Step>)
    requires Costless(steps)
    ensures ReceivedOnce(Run(INIT, steps)) && NoJump(steps) && FromTheStart(steps)
  {
    CostlessKeepsEverything(steps);
    Reachable(steps);
    NothingMissing(Run(INIT, steps));
    MissesExactly(steps);
    StartsExactly(steps);
    ExactlyOnce(steps);
  }

  lemma NothingMissing(s: System)
    requires TransportInv(s) && s.lagged == {}
    ensures s.missing == {}
  {
  }

  /** The server has sent, and the client received, all there is. */
  ghost predicate Drained(s: System) {
    s.conn.Streaming? && s.conn.wire == [] && s.conn.backlog == [] && s.conn.rx == |s.log.record|
  }

  /** No number the client still needs was skipped on this response. */
  ghost predicate NothingSkippedAhead(s: System)
    requires s.conn.Streaming?
  {
    forall n :: n in s.conn.skipped ==> n < Needed(s)
  }

  lemma NothingOwed(s: System)
    requires TransportInv(s) && Drained(s) && NothingSkippedAhead(s)
    ensures Needed(s) == |s.log.record|
  {
    PickedAll(s.log.record, Needed(s), |s.log.record|, s.conn.skipped);
  }

  /** A client that holds the whole record is at its end. */
  lemma WholeIsAtTheEnd(s: System)
    requires TransportInv(s) && s.received == s.log.record
    ensures Needed(s) == |s.log.record| && ReceivedOnce(s)
  {
    var n := |s.log.record|;
    if n > 0 {
      assert s.log.record[n - 1].seqNo == n - 1;
    }
    assert s.log.record[..n] == s.log.record;
  }

  lemma DrainedAt(s: System)
    requires TransportInv(s) && Drained(s)
    ensures s.received == s.log.record <==> ReceivedOnce(s) && NothingSkippedAhead(s)
  {
    if s.received == s.log.record {
      WholeIsAtTheEnd(s);
    }
    if ReceivedOnce(s) && NothingSkippedAhead(s) {
      NothingOwed(s);
      assert s.log.record[..|s.log.record|] == s.log.record;
    }
  }

  /**
   Once a response is drained the client has the whole record exactly when its
   delivery was exact and no number after its position was skipped.
  */
  lemma DrainedMeansComplete(steps: seq<Step>)
    requires Drained(Run(INIT, steps))
    ensures var s := Run(INIT, steps);
            s.received == s.log.record <==> NoJump(steps) && FromTheStart(steps) && NothingSkippedAhead(s)
  {
    Reachable(steps);
    DrainedAt(Run(INIT, steps));
    ExactlyOnce(steps);
  }

  /** So an undisturbed response, once drained, has left nothing behind. */
  lemma UndisturbedDrainIsComplete(steps: seq<Step>)
    requires Costless(steps) && Drained(Run(INIT, steps))
    ensures Run(INIT, steps).received == Run(INIT, steps).log.record
  {
    CostlessKeepsEverything(steps);
    Reachable(steps);
    UndisturbedRunsAreExact(steps);
    DrainedAt(Run(INIT, steps));
  }

  // ----- what a lag costs -----------------------------------------------------------

  /** A reconnecting client is refused exactly when its next event has left the replay buffer. */
  lemma ReconnectRefusedExactly(s: System)
    requires TransportInv(s) && !s.conn.Closed? && s.resident
    ensures var t := Apply(Apply(Apply(s, Drop), Subscribe), Snapshot);
            t.conn.Closed? <==> s.lastId.Some? && Needed(s) < Oldest(|s.log.record|)
  {
    var u := Apply(Apply(s, Drop), Subscribe);
    StepKeepsTransport(s, Drop);
    StepKeepsTransport(Apply(s, Drop), Subscribe);
    SnapshotKeepsTransport(u);
  }

  /** A client that reconnects before it received anything starts from the oldest event held. */
  lemma ReconnectFromNothing(s: System)
    requires TransportInv(s) && s.conn.Streaming? && s.resident && s.lastId.None?
    ensures var t := Apply(Apply(Apply(s, Drop), Subscribe), Snapshot);
            t.conn.Streaming? && t.start == Oldest(|s.log.record|)
  {
    var u := Apply(Apply(s, Drop), Subscribe);
    assert u == s.(conn := Subscribed(|s.log.record|));
  }

  /**
   A comment beside the live stream says ending it on a lag forces a resume that
   recovers the missed events. The stream does not end, and the resume could not:
   ring and replay buffer have the same capacity. Whenever a lag has skipped a
   number the client still needs, a resume is refused if the client has a
   position. If it has none the resume is accepted and starts past that number,
   which the client is never told.
  */
  lemma SkippedCannotBeResumed(s: System, n: nat)
    requires TransportInv(s) && s.conn.Streaming? && n in s.conn.skipped && n >= Needed(s)
    ensures s.lastId.Some? ==> Since(s.log, s.lastId).None?
    ensures s.lastId.None? && s.resident ==>
              var t := Apply(Apply(Apply(s, Drop), Subscribe), Snapshot);
              t.conn.Streaming? && t.start == Oldest(|s.log.record|) > n
  {
    assert n < Oldest(|s.log.record|);
    if s.lastId.Some? {
      SinceIsReplay(s.log, s.lastId);
    } else if s.resident {
      ReconnectFromNothing(s);
    }
  }

  lemma MissingOnlyGrows(s: System, step: Step)
    requires !step.Open?
    ensures s.missing <= Apply(s, step).missing
  {
  }

  lemma {:induction false} MissingStays(s: System, steps: seq<Step>)
    requires Open !in steps
    ensures s.missing <= Run(s, steps).missing
    decreases |steps|
  {
    if steps != [] {
      MissingStays(s, steps[..|steps| - 1]);
      MissingOnlyGrows(Run(s, steps[..|steps| - 1]), steps[|steps| - 1]);
    }
  }

  /** And a gap once jumped over stays: only a new subscription from scratch can show that event. */
  lemma GapIsPermanent(s: System, n: nat, steps: seq<Step>)
    requires Inv(s) && n in s.missing && Open !in steps
    ensures var t := Run(s, steps);
            n in t.missing && n < |t.log.record| && t.log.record[n] !in t.received
  {
    MissingStays(s, steps);
    EveryRunKeepsInv(s, steps);
    WhatIsHeld(Run(s, steps));
  }

  ghost function Emissions(k: nat): (steps: seq<Step>)
    ensures |steps| == k && Open !in steps
  {
    if k == 0 then [] else Emissions(k - 1) + [Emit(Heartbeat)]
  }

  /** The state after `k` heartbeats. */
  ghost function Beaten(s: System, k: nat): System {
    if k == 0 then s else Apply(Beaten(s, k - 1), Emit(Heartbeat))
  }

  lemma {:induction false} RunOfEmissions(s: System, k: nat)
    ensures Run(s, Emissions(k)) == Beaten(s, k)
  {
    if k > 0 {
      RunOfEmissions(s, k - 1);
      RunLast(s, Emissions(k - 1), Emit(Heartbeat));
    }
  }

  lemma EmissionOnlyGrowsTheLog(s: System)
    requires ValidLog(s.log) && s.log.next < U64_MAX
    ensures var t := Apply(s, Emit(Heartbeat));
            t == s.(log := t.log) && ValidLog(t.log) && |t.log.record| == |s.log.record| + 1
  {
    EmittedKeepsValid(s.log, Heartbeat);
  }

  lemma {:induction false} BeatsOnlyGrowTheLog(s: System, k: nat)
    requires ValidLog(s.log) && s.log.next + k < U64_MAX
    ensures var t := Beaten(s, k);
            t == s.(log := t.log) && ValidLog(t.log) && |t.log.record| == |s.log.record| + k
  {
    if k > 0 {
      BeatsOnlyGrowTheLog(s, k - 1);
      EmissionOnlyGrowsTheLog(Beaten(s, k - 1));
    }
  }

  lemma {:induction false} RunSplits(s: System, a: seq<Step>, b: seq<Step>)
    ensures Run(s, a + b) == Run(Run(s, a), b)
    decreases |b|
  {
    if b == [] {
      assert a + b == a;
    } else {
      assert (a + b)[..|a + b| - 1] == a + b[..|b| - 1];
      RunSplits(s, a, b[..|b| - 1]);
    }
  }

  lemma RunLast(s: System, steps: seq<Step>, last: Step)
    ensures Run(s, steps + [last]) == Apply(Run(s, steps), last)
  {
    assert (steps + [last])[..|steps|] == steps;
  }

  lemma RunThree(s: System, a: Step, b: Step, c: Step)
    ensures Run(s, [a, b, c]) == Apply(Apply(Apply(s, a), b), c)
  {
    RunLast(s, [], a);
    RunLast(s, [a], b);
    RunLast(s, [a, b], c);
    assert [] + [a] == [a] && [a] + [b] == [a, b] && [a, b] + [c] == [a, b, c];
  }

  /** A receiver still at number 0 when the ring has just lost it. */
  lemma LagJumpsOverZero(s: System)
    requires ValidLog(s.log) && |s.log.record| == REPLAY_BUFFER + 1
    requires s.conn == Streaming([], [], None, 0, true, {})
    requires s.lastId == None && s.start == 0 && s.missing == {}
    ensures var t := Run(s, [Lag, Send, Deliver]);
            t.conn.Streaming? && t.lastId == Some(1) && t.start == 0 && t.missing == {0}
  {
    RunThree(s, Lag, Send, Deliver);
    var t := Apply(s, Lag);
    assert t == s.(conn := Streaming([], [], None, 1, true, t.conn.skipped), lagged := t.lagged);
    DeliverJumps(t);
  }

  lemma DeliverJumps(s: System)
    requires ValidLog(s.log) && 1 < |s.log.record| <= REPLAY_BUFFER + 1
    requires s.conn.Streaming? && s.conn == Streaming([], [], None, 1, true, s.conn.skipped)
    requires s.lastId == None && s.start == 0 && s.missing == {}
    ensures var t := Apply(Apply(s, Send), Deliver);
            t.conn.Streaming? && t.lastId == Some(1) && t.start == 0 && t.missing == {0}
  {
    var t := Apply(s, Send);
    assert s.conn.wire + [s.log.record[1]] == [s.log.record[1]];
    assert t == s.(conn := s.conn.(wire := [s.log.record[1]], rx := 2));
    assert {} + Range(0, 1) == {0};
  }

  /**
   A concrete run with a gap: a browser subscribes, one more event than the ring
   holds is emitted before the server polls, and the next delivery is number 1.
   Event 0 is then missing for as long as this subscription lives.
  */
  lemma LagOpensAnUndetectedGap() returns (steps: seq<Step>)
    ensures var s := Run(INIT, steps);
            s.conn.Streaming? && s.lastId == Some(1) && s.start == 0 && s.missing == {0}
    ensures forall more :: Open !in more ==> 0 in Run(Run(INIT, steps), more).missing
  {
    var begin, wait, end := [Open, Subscribe, Snapshot], Emissions(REPLAY_BUFFER + 1), [Lag, Send, Deliver];
    var s := Run(INIT, begin);
    RunThree(INIT, Open, Subscribe, Snapshot);
    assert s == INIT.(conn := Streaming([], [], None, 0, true, {}));
    BeatsOnlyGrowTheLog(s, REPLAY_BUFFER + 1);
    RunOfEmissions(s, REPLAY_BUFFER + 1);
    LagJumpsOverZero(Run(s, wait));
    steps := begin + wait + end;
    RunSplits(INIT, begin, wait);
    RunSplits(INIT, begin + wait, end);
    forall more | Open !in more
      ensures 0 in Run(Run(INIT, steps), more).missing
    {
      MissingStays(Run(INIT, steps), more);
    }
  }
}
