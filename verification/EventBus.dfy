/** `EventBus` of `tlgr/daemon/events.py`: numbering and the replay buffer of each account, and the lanes whose
    workers hand events to the handlers. One event here is one stretch of code between two awaits. */
module EventBuses {
  import opened Basics

  datatype Envelope = Envelope(seqNo: int, account: string, kind: string, chatId: Option<int>)

  type Handler = int

  /** A queued event and when it was published. */
  datatype Job = Job(envelope: Envelope, stamp: nat)

  /** A lane worker in the middle of its handlers: those of its snapshot still to be called. */
  datatype Flight = Flight(job: Job, left: seq<Handler>)

  datatype Delivery = Delivery(to: Handler, job: Job)

  datatype Bus = Bus(
    size: nat, laneSize: nat, workers: nat, hash: string -> int,
    seqs: map<string, int>,
    buffers: map<string, seq<Envelope>>,
    lanes: seq<seq<Job>>,
    handlers: seq<Handler>,
    flights: seq<Option<Flight>>,
    published: seq<Envelope>,
    delivered: seq<Delivery>)

  function New(size: int, workers: int, laneSize: int, hash: string -> int): Bus {
    Bus(Max(16, size), Max(16, laneSize), Max(1, workers), hash, map[], map[], [], [], [], [], [])
  }

  function Abs(x: int): nat {
    if x < 0 then -x else x
  }

  /** `_lane_for`: all events of a chat share a lane. */
  function LaneFor(hash: string -> int, workers: nat, e: Envelope): nat {
    if workers == 0 then 0
    else Abs(if e.chatId.Some? then e.chatId.value else hash(e.account)) % workers
  }

  // ---- numbering and buffering ---------------------------------------------------------------

  /** `load_seq`, given what the state file holds. */
  function SeqOf(b: Bus, account: string, stored: int): int {
    Get(b.seqs, account, stored)
  }

  function NextEnvelope(b: Bus, account: string, kind: string, chatId: Option<int>, stored: int): Envelope {
    Envelope(SeqOf(b, account, stored) + 1, account, kind, chatId)
  }

  /** The bounded deque, and the counter. */
  function Buffered(b: Bus, e: Envelope): Bus {
    b.(seqs := b.seqs[e.account := e.seqNo],
       buffers := b.buffers[e.account := LastN(Get(b.buffers, e.account, []) + [e], b.size)])
  }

  /** A full lane drops its oldest event. */
  function Queued(lane: seq<Job>, laneSize: nat, job: Job): seq<Job> {
    if laneSize > 0 && |lane| >= laneSize then lane[1..] + [job] else lane + [job]
  }

  function Published(b: Bus, e: Envelope): Bus {
    var job := Job(e, |b.published|);
    var lane := LaneFor(b.hash, b.workers, e);
    b.(published := b.published + [e],
       lanes := if b.handlers != [] && lane < |b.lanes|
                then b.lanes[lane := Queued(b.lanes[lane], b.laneSize, job)] else b.lanes)
  }

  function Emitted(b: Bus, e: Envelope): Bus {
    Published(Buffered(b, e), e)
  }

  /** `replay` */
  function Replay(b: Bus, account: string, since: Option<int>): (seq<Envelope>, Option<int>) {
    var buffer := Get(b.buffers, account, []);
    if since.None? || buffer == [] then ([], None)
    else
      (Newer(buffer, since.value),
       if since.value + 1 < buffer[0].seqNo then Some(buffer[0].seqNo - since.value - 1) else None)
  }

  function Newer(buffer: seq<Envelope>, since: int): seq<Envelope> {
    if buffer == [] then []
    else
      Newer(buffer[..|buffer| - 1], since)
      + if buffer[|buffer| - 1].seqNo > since then [buffer[|buffer| - 1]] else []
  }

  // ---- handlers and lanes ---------------------------------------------------------------------

  function Started(b: Bus): Bus {
    b.(lanes := seq(b.workers, (i: int) => []), flights := seq(b.workers, (i: int) => None))
  }

  function HandlerAdded(b: Bus, h: Handler): Bus {
    b.(handlers := b.handlers + [h])
  }

  function HandlerRemoved(b: Bus, h: Handler): Bus {
    b.(handlers := Pop(b.handlers, h))
  }

  /** A worker takes the oldest event of its lane, and a snapshot of the handlers. */
  function Taken(b: Bus, lane: nat): Bus
    requires lane < |b.lanes| == |b.flights| && b.lanes[lane] != []
  {
    b.(lanes := b.lanes[lane := b.lanes[lane][1..]],
       flights := b.flights[lane := Some(Flight(b.lanes[lane][0], b.handlers))])
  }

  /** The next handler of the snapshot is called; after the last one the worker is free again. */
  function Handed(b: Bus, lane: nat): Bus
    requires lane < |b.flights| && b.flights[lane].Some?
  {
    var f := b.flights[lane].value;
    if f.left == [] then b.(flights := b.flights[lane := None])
    else b.(delivered := b.delivered + [Delivery(f.left[0], f.job)],
            flights := b.flights[lane := Some(f.(left := f.left[1..]))])
  }

  datatype Event =
    | Emit(account: string, kind: string, chatId: Option<int>, stored: int)
    | Start
    | AddHandler(h: Handler)
    | RemoveHandler(h: Handler)
    | Take(lane: nat)
    | Hand(lane: nat)

  predicate Enabled(b: Bus, e: Event) {
    match e
    case Take(lane) => lane < |b.lanes| == |b.flights| && b.lanes[lane] != [] && b.flights[lane].None?
    case Hand(lane) => lane < |b.flights| && b.flights[lane].Some?
    case _ => true
  }

  function Next(b: Bus, e: Event): Bus
    requires Enabled(b, e)
  {
    match e
    case Emit(account, kind, chatId, stored) => Emitted(b, NextEnvelope(b, account, kind, chatId, stored))
    case Start => Started(b)
    case AddHandler(h) => HandlerAdded(b, h)
    case RemoveHandler(h) => HandlerRemoved(b, h)
    case Take(lane) => Taken(b, lane)
    case Hand(lane) => Handed(b, lane)
  }

  // ---- what every event keeps: the buffers -------------------------------------------------------

  /** Everything an account ever emitted, in order. */
  function OfAccount(published: seq<Envelope>, account: string): seq<Envelope> {
    if published == [] then []
    else
      OfAccount(published[..|published| - 1], account)
      + if published[|published| - 1].account == account then [published[|published| - 1]] else []
  }

  /** The buffer of an account is the last events it emitted, consecutively numbered up to the latest. */
  ghost predicate BufferOk(b: Bus, account: string) {
    var buffer := Get(b.buffers, account, []);
    && buffer == LastN(OfAccount(b.published, account), b.size)
    && (buffer != [] ==> account in b.seqs)
    && Numbered(buffer, Get(b.seqs, account, 0))
  }

  ghost predicate Numbered(buffer: seq<Envelope>, latest: int) {
    forall i :: 0 <= i < |buffer| ==> buffer[i].seqNo == latest - |buffer| + 1 + i
  }

  ghost predicate BuffersOk(b: Bus) {
    b.size > 0 && forall account :: BufferOk(b, account)
  }

  lemma EmittedOneMore(published: seq<Envelope>, e: Envelope, account: string)
    ensures OfAccount(published + [e], account)
            == OfAccount(published, account) + if e.account == account then [e] else []
  {
    assert (published + [e])[..|published|] == published;
  }

  lemma NumberedOneMore(buffer: seq<Envelope>, e: Envelope, size: nat, latest: int)
    requires size > 0 && e.seqNo == latest + 1 && Numbered(buffer, latest)
    ensures Numbered(LastN(buffer + [e], size), e.seqNo)
  {
    var grown := buffer + [e];
    var kept := LastN(grown, size);
    forall i | 0 <= i < |kept| ensures kept[i].seqNo == e.seqNo - |kept| + 1 + i {
      assert kept[i] == grown[|grown| - |kept| + i];
    }
  }

  lemma EmitKeepsBuffer(b: Bus, e: Envelope, stored: int, account: string)
    requires b.size > 0 && BufferOk(b, account)
    requires e.seqNo == SeqOf(b, e.account, stored) + 1
    ensures BufferOk(Emitted(b, e), account)
  {
    EmittedOneMore(b.published, e, account);
    if account == e.account {
      var buffer := Get(b.buffers, account, []);
      LastTwice(OfAccount(b.published, account), [e], b.size);
      NumberedOneMore(buffer, e, b.size, e.seqNo - 1);
    }
  }

  lemma NextKeepsBuffers(b: Bus, e: Event)
    requires BuffersOk(b) && Enabled(b, e)
    ensures BuffersOk(Next(b, e))
  {
    forall account ensures BufferOk(Next(b, e), account) {
      assert BufferOk(b, account);
      if e.Emit? {
        EmitKeepsBuffer(b, NextEnvelope(b, e.account, e.kind, e.chatId, e.stored), e.stored, account);
      }
    }
  }

  /** Replay is complete, or says by how much it is not: the end of the buffer, just what is above `since`,
      and what is lost makes up the rest. */
  lemma ReplayAccounts(b: Bus, account: string, since: int)
    requires BufferOk(b, account) && Get(b.buffers, account, []) != []
    requires 0 <= since <= b.seqs[account]
    ensures var (events, gap) := Replay(b, account, Some(since));
      && |events| + (if gap.Some? then gap.value else 0) == b.seqs[account] - since
      && |events| <= |b.buffers[account]| && events == b.buffers[account][|b.buffers[account]| - |events|..]
      && Numbered(events, b.seqs[account])
  {
    var buffer, latest := b.buffers[account], b.seqs[account];
    var n := if latest - since <= |buffer| then latest - since else |buffer|;
    assert Newer(buffer, since) == buffer[|buffer| - n..] by { NewerIsSuffix(buffer, since, n); }
    assert buffer[0].seqNo == latest - |buffer| + 1;
  }

  lemma {:induction false} NewerIsSuffix(buffer: seq<Envelope>, since: int, n: nat)
    requires n <= |buffer|
    requires forall i :: 0 <= i < |buffer| ==> (buffer[i].seqNo > since <==> i >= |buffer| - n)
    ensures Newer(buffer, since) == buffer[|buffer| - n..]
  {
    if buffer != [] {
      var front, last := buffer[..|buffer| - 1], buffer[|buffer| - 1];
      assert last == buffer[|buffer| - 1] && (last.seqNo > since <==> n > 0);
      NewerIsSuffix(front, since, if n > 0 then n - 1 else 0);
      if n > 0 { assert front[|buffer| - n..] + [last] == buffer[|buffer| - n..]; }
    }
  }

  // ---- what every event keeps: the lanes ------------------------------------------------------------

  function LaneOf(b: Bus, job: Job): nat {
    LaneFor(b.hash, b.workers, job.envelope)
  }

  /** The job was published when its stamp says, and belongs to the lane. */
  ghost predicate Belongs(b: Bus, lane: nat, job: Job) {
    job.stamp < |b.published| && b.published[job.stamp] == job.envelope && LaneOf(b, job) == lane
  }

  /** A lane holds its jobs in the order they were published, behind the one in flight. */
  ghost predicate LaneOk(b: Bus, lane: nat)
    requires lane < |b.lanes| == |b.flights|
  {
    && (forall i :: 0 <= i < |b.lanes[lane]| ==> Belongs(b, lane, b.lanes[lane][i]))
    && (forall i, j :: 0 <= i < j < |b.lanes[lane]| ==> b.lanes[lane][i].stamp < b.lanes[lane][j].stamp)
    && (b.flights[lane].Some? ==>
          && Belongs(b, lane, b.flights[lane].value.job)
          && forall i :: 0 <= i < |b.lanes[lane]| ==> b.flights[lane].value.job.stamp < b.lanes[lane][i].stamp)
  }

  /** What was delivered from a lane is not newer than its flight, and older than what waits in it. */
  ghost predicate DeliveredOk(b: Bus, d: Delivery)
    requires |b.lanes| == |b.flights|
  {
    var lane := LaneOf(b, d.job);
    && Belongs(b, lane, d.job)
    && (lane < |b.lanes| ==>
          && (b.flights[lane].Some? ==> d.job.stamp <= b.flights[lane].value.job.stamp)
          && forall i :: 0 <= i < |b.lanes[lane]| ==> d.job.stamp < b.lanes[lane][i].stamp)
  }

  /** Per lane, deliveries follow the order of publishing. */
  ghost predicate InOrder(b: Bus) {
    forall i, j :: 0 <= i < j < |b.delivered| && LaneOf(b, b.delivered[i].job) == LaneOf(b, b.delivered[j].job) ==>
      b.delivered[i].job.stamp <= b.delivered[j].job.stamp
  }

  ghost predicate LanesOk(b: Bus) {
    && |b.lanes| == |b.flights|
    && (forall lane :: 0 <= lane < |b.lanes| ==> LaneOk(b, lane))
    && (forall i :: 0 <= i < |b.delivered| ==> DeliveredOk(b, b.delivered[i]))
    && InOrder(b)
  }

  lemma StaysInLane(b: Bus, e: Envelope, lane: nat, job: Job)
    requires Belongs(b, lane, job)
    ensures Belongs(Published(b, e), lane, job) && job.stamp < |b.published|
  {
  }

  /** The lane of the event: the queued ones in front, less the oldest when it is full, and the new one behind. */
  lemma OwnLaneQueues(b: Bus, e: Envelope, lane: nat)
    requires |b.lanes| == |b.flights| && lane < |b.lanes| && LaneOk(b, lane)
    requires lane == LaneFor(b.hash, b.workers, e) && b.handlers != []
    ensures LaneOk(Published(b, e), lane)
  {
    var t := Published(b, e);
    var before, job := b.lanes[lane], Job(e, |b.published|);
    var gone := if b.laneSize > 0 && |before| >= b.laneSize then 1 else 0;
    assert t.lanes[lane] == before[gone..] + [job];
    forall i | 0 <= i < |before| ensures Belongs(t, lane, before[i]) && before[i].stamp < job.stamp {
      StaysInLane(b, e, lane, before[i]);
    }
    assert Belongs(t, lane, job);
    if b.flights[lane].Some? { StaysInLane(b, e, lane, b.flights[lane].value.job); }
  }

  lemma QueuedKeepsLane(b: Bus, e: Envelope, lane: nat)
    requires |b.lanes| == |b.flights| && lane < |b.lanes| && LaneOk(b, lane)
    ensures LaneOk(Published(b, e), lane)
  {
    if lane == LaneFor(b.hash, b.workers, e) && b.handlers != [] {
      OwnLaneQueues(b, e, lane);
    } else {
      assert Published(b, e).lanes[lane] == b.lanes[lane];
      forall i | 0 <= i < |b.lanes[lane]| ensures Belongs(Published(b, e), lane, b.lanes[lane][i]) {
        StaysInLane(b, e, lane, b.lanes[lane][i]);
      }
    }
  }

  lemma PublishedKeepsDelivered(b: Bus, e: Envelope, d: Delivery)
    requires |b.lanes| == |b.flights| && DeliveredOk(b, d)
    ensures DeliveredOk(Published(b, e), d)
  {
    var lane := LaneOf(b, d.job);
    if lane < |b.lanes| {
      var t := Published(b, e);
      forall i | 0 <= i < |t.lanes[lane]| ensures d.job.stamp < t.lanes[lane][i].stamp {
      }
    }
  }

  lemma EmitKeepsLanes(b: Bus, e: Envelope)
    requires LanesOk(b)
    ensures LanesOk(Emitted(b, e))
  {
    var m := Buffered(b, e);
    assert LanesOk(m) by {
      forall lane | 0 <= lane < |m.lanes| ensures LaneOk(m, lane) { assert LaneOk(b, lane); }
      forall i | 0 <= i < |m.delivered| ensures DeliveredOk(m, m.delivered[i]) {
        assert DeliveredOk(b, b.delivered[i]);
      }
    }
    var t := Published(m, e);
    forall lane | 0 <= lane < |t.lanes| ensures LaneOk(t, lane) { QueuedKeepsLane(m, e, lane); }
    forall i | 0 <= i < |t.delivered| ensures DeliveredOk(t, t.delivered[i]) {
      PublishedKeepsDelivered(m, e, m.delivered[i]);
    }
  }

  lemma TakeKeepsLanes(b: Bus, lane: nat)
    requires LanesOk(b) && Enabled(b, Take(lane))
    ensures LanesOk(Taken(b, lane))
  {
    var t := Taken(b, lane);
    forall l | 0 <= l < |t.lanes| ensures LaneOk(t, l) { assert LaneOk(b, l); }
    forall i | 0 <= i < |t.delivered| ensures DeliveredOk(t, t.delivered[i]) { assert DeliveredOk(b, b.delivered[i]); }
  }

  lemma HandKeepsLanes(b: Bus, lane: nat)
    requires LanesOk(b) && Enabled(b, Hand(lane))
    ensures LanesOk(Handed(b, lane))
  {
    var t := Handed(b, lane);
    forall l | 0 <= l < |t.lanes| ensures LaneOk(t, l) { assert LaneOk(b, l); }
    forall i | 0 <= i < |t.delivered| ensures DeliveredOk(t, t.delivered[i]) { HandKeepsDelivered(b, lane, i); }
    HandKeepsOrder(b, lane);
  }

  lemma HandKeepsDelivered(b: Bus, lane: nat, i: nat)
    requires LanesOk(b) && Enabled(b, Hand(lane)) && i < |Handed(b, lane).delivered|
    ensures DeliveredOk(Handed(b, lane), Handed(b, lane).delivered[i])
  {
    assert LaneOk(b, lane);
    if i < |b.delivered| { assert DeliveredOk(b, b.delivered[i]); }
  }

  lemma HandKeepsOrder(b: Bus, lane: nat)
    requires LanesOk(b) && Enabled(b, Hand(lane))
    ensures InOrder(Handed(b, lane))
  {
    var t := Handed(b, lane);
    forall i, j | 0 <= i < j < |t.delivered| && LaneOf(t, t.delivered[i].job) == LaneOf(t, t.delivered[j].job)
      ensures t.delivered[i].job.stamp <= t.delivered[j].job.stamp
    {
      assert LaneOk(b, lane);
      assert DeliveredOk(b, b.delivered[i]);
    }
  }

  lemma NextKeepsLanes(b: Bus, e: Event)
    requires LanesOk(b) && Enabled(b, e)
    ensures LanesOk(Next(b, e))
  {
    match e
    case Emit(account, kind, chatId, stored) => EmitKeepsLanes(b, NextEnvelope(b, account, kind, chatId, stored));
    case Take(lane) => TakeKeepsLanes(b, lane);
    case Hand(lane) => HandKeepsLanes(b, lane);
    case Start => StartKeepsLanes(b);
    case _ => HandlersAreFree(b, Next(b, e));
  }

  lemma StartKeepsLanes(b: Bus)
    requires LanesOk(b)
    ensures LanesOk(Started(b))
  {
    var t := Started(b);
    forall i | 0 <= i < |t.delivered| ensures DeliveredOk(t, t.delivered[i]) { assert DeliveredOk(b, b.delivered[i]); }
  }

  lemma HandlersAreFree(b: Bus, t: Bus)
    requires LanesOk(b) && t == b.(handlers := t.handlers)
    ensures LanesOk(t)
  {
    forall l | 0 <= l < |t.lanes| ensures LaneOk(t, l) { assert LaneOk(b, l); }
    forall i | 0 <= i < |t.delivered| ensures DeliveredOk(t, t.delivered[i]) { assert DeliveredOk(b, b.delivered[i]); }
  }

  // ---- handlers registered once --------------------------------------------------------------------

  /** No handler is registered twice, and the flight of a lane has not reached those it has left. */
  ghost predicate Once(b: Bus) {
    && Distinct(b.handlers)
    && (forall lane :: 0 <= lane < |b.flights| ==> FlightOnce(b, lane))
    && forall i, j :: 0 <= i < j < |b.delivered| && SameHand(b, b.delivered[i], b.delivered[j]) ==>
         b.delivered[i].job.stamp < b.delivered[j].job.stamp
  }

  ghost predicate SameHand(b: Bus, d: Delivery, e: Delivery) {
    d.to == e.to && LaneOf(b, d.job) == LaneOf(b, e.job)
  }

  ghost predicate FlightOnce(b: Bus, lane: nat)
    requires lane < |b.flights|
  {
    b.flights[lane].Some? ==>
      && Distinct(b.flights[lane].value.left)
      && forall i :: 0 <= i < |b.delivered| && LaneOf(b, b.delivered[i].job) == lane
                     && b.delivered[i].to in b.flights[lane].value.left ==>
           b.delivered[i].job.stamp < b.flights[lane].value.job.stamp
  }

  lemma TakeKeepsOnce(b: Bus, lane: nat)
    requires LanesOk(b) && Once(b) && Enabled(b, Take(lane))
    ensures Once(Taken(b, lane))
  {
    var t := Taken(b, lane);
    forall l | 0 <= l < |t.flights| ensures FlightOnce(t, l) {
      assert FlightOnce(b, l);
      forall i | 0 <= i < |t.delivered| && LaneOf(t, t.delivered[i].job) == lane
        ensures t.delivered[i].job.stamp < b.lanes[lane][0].stamp
      {
        assert DeliveredOk(b, b.delivered[i]);
      }
    }
  }

  lemma HandKeepsOnce(b: Bus, lane: nat)
    requires LanesOk(b) && Once(b) && Enabled(b, Hand(lane))
    ensures Once(Handed(b, lane))
  {
    var t := Handed(b, lane);
    assert FlightOnce(b, lane) && LaneOk(b, lane);
    var f := b.flights[lane].value;
    if f.left != [] {
      assert f.left == [f.left[0]] + f.left[1..];
      forall i, j | 0 <= i < j < |t.delivered| && SameHand(t, t.delivered[i], t.delivered[j])
        ensures t.delivered[i].job.stamp < t.delivered[j].job.stamp
      {
        assert j < |b.delivered| ==> SameHand(b, b.delivered[i], b.delivered[j]);
      }
    }
    forall l | 0 <= l < |t.flights| ensures FlightOnce(t, l) {
      assert FlightOnce(b, l);
    }
  }

  lemma NextKeepsOnce(b: Bus, e: Event)
    requires LanesOk(b) && Once(b) && Enabled(b, e)
    requires e.AddHandler? ==> e.h !in b.handlers
    ensures Once(Next(b, e))
  {
    match e
    case Take(lane) => TakeKeepsOnce(b, lane);
    case Hand(lane) => HandKeepsOnce(b, lane);
    case AddHandler(h) =>
      DistinctAppend(b.handlers, h);
      SameDeliveries(b, Next(b, e));
    case RemoveHandler(h) =>
      PopMembers(b.handlers, h);
      SameDeliveries(b, Next(b, e));
    case Start =>
      forall i, j | 0 <= i < j < |b.delivered| && SameHand(Next(b, e), b.delivered[i], b.delivered[j])
        ensures b.delivered[i].job.stamp < b.delivered[j].job.stamp
      {
        assert SameHand(b, b.delivered[i], b.delivered[j]);
      }
    case Emit(_, _, _, _) => SameDeliveries(b, Next(b, e));
  }

  lemma SameDeliveries(b: Bus, t: Bus)
    requires Once(b) && t.delivered == b.delivered && t.flights == b.flights && Distinct(t.handlers)
    requires t.hash == b.hash && t.workers == b.workers
    ensures Once(t)
  {
    forall l | 0 <= l < |t.flights| ensures FlightOnce(t, l) { assert FlightOnce(b, l); }
    forall i, j | 0 <= i < j < |t.delivered| && SameHand(t, t.delivered[i], t.delivered[j])
      ensures t.delivered[i].job.stamp < t.delivered[j].job.stamp
    {
      assert SameHand(b, b.delivered[i], b.delivered[j]);
    }
  }

  // ---- runs -------------------------------------------------------------------------------------------

  ghost predicate IsRun(b0: Bus, states: seq<Bus>, events: seq<Event>) {
    && |states| == |events| + 1 && states[0] == b0
    && forall i :: 0 <= i < |events| ==> Takes(states[i], events[i], states[i + 1])
  }

  ghost predicate Takes(b: Bus, e: Event, t: Bus) {
    Enabled(b, e) && t == Next(b, e)
  }

  /** No handler is added while it is registered. */
  ghost predicate AddsOnce(states: seq<Bus>, events: seq<Event>)
    requires |states| == |events| + 1
  {
    forall i :: 0 <= i < |events| && events[i].AddHandler? ==> events[i].h !in states[i].handlers
  }

  lemma {:induction false} RunKeeps(size: int, workers: int, laneSize: int, hash: string -> int,
                                    states: seq<Bus>, events: seq<Event>, n: nat)
    requires IsRun(New(size, workers, laneSize, hash), states, events) && n < |states|
    ensures BuffersOk(states[n]) && LanesOk(states[n])
    ensures AddsOnce(states, events) ==> Once(states[n])
  {
    if n > 0 {
      var m := n - 1;
      RunKeeps(size, workers, laneSize, hash, states, events, m);
      assert Takes(states[m], events[m], states[m + 1]);
      NextKeepsBuffers(states[m], events[m]);
      NextKeepsLanes(states[m], events[m]);
      if AddsOnce(states, events) { NextKeepsOnce(states[m], events[m]); }
    }
  }

  /** Per-chat order, in every interleaving of publishers and lane workers, also when lanes overflow: what any
      handler is handed of one chat was published, and in the order it is handed out; and a handler that is
      registered once is handed no event twice. */
  lemma ChatOrderIsKept(size: int, workers: int, laneSize: int, hash: string -> int,
                        states: seq<Bus>, events: seq<Event>, n: nat, i: nat, j: nat)
    requires IsRun(New(size, workers, laneSize, hash), states, events) && n < |states|
    requires i < j < |states[n].delivered|
    requires var a, b := states[n].delivered[i].job.envelope, states[n].delivered[j].job.envelope;
      a.chatId.Some? && a.chatId == b.chatId
    ensures var b := states[n];
      var x, y := b.delivered[i], b.delivered[j];
      && x.job.stamp < |b.published| && b.published[x.job.stamp] == x.job.envelope
      && y.job.stamp < |b.published| && b.published[y.job.stamp] == y.job.envelope
      && x.job.stamp <= y.job.stamp
      && (AddsOnce(states, events) && x.to == y.to ==> x.job.stamp < y.job.stamp)
  {
    RunKeeps(size, workers, laneSize, hash, states, events, n);
    var b := states[n];
    assert DeliveredOk(b, b.delivered[i]) && DeliveredOk(b, b.delivered[j]);
    assert b.delivered[i].to == b.delivered[j].to ==> SameHand(b, b.delivered[i], b.delivered[j]);
  }

  /** Over any run: the buffer of an account is exactly the last events it emitted, consecutively numbered; and a
      replay from a known point is the end of that buffer, all of it above the point, with the exact number of
      those that are lost. */
  lemma ReplayIsComplete(size: int, workers: int, laneSize: int, hash: string -> int,
                         states: seq<Bus>, events: seq<Event>, n: nat, account: string, since: int)
    requires IsRun(New(size, workers, laneSize, hash), states, events) && n < |states|
    ensures Get(states[n].buffers, account, []) == LastN(OfAccount(states[n].published, account), states[n].size)
    ensures var b, buffer := states[n], Get(states[n].buffers, account, []);
      buffer != [] ==>
        && account in b.seqs && Numbered(buffer, b.seqs[account])
        && (0 <= since <= b.seqs[account] ==>
              var (replayed, gap) := Replay(b, account, Some(since));
              && |replayed| <= |buffer| && replayed == buffer[|buffer| - |replayed|..]
              && |replayed| + (if gap.Some? then gap.value else 0) == b.seqs[account] - since)
  {
    RunKeeps(size, workers, laneSize, hash, states, events, n);
    var b := states[n];
    assert BufferOk(b, account);
    if Get(b.buffers, account, []) != [] && 0 <= since <= b.seqs[account] {
      ReplayAccounts(b, account, since);
    }
  }

  // ---- the object -------------------------------------------------------------------------------------------

  class EventBus {
    const size: nat
    const laneSize: nat
    const workers: nat
    const hash: string -> int
    var seqs: map<string, int>
    var buffers: map<string, seq<Envelope>>
    var lanes: seq<seq<Job>>
    var handlers: seq<Handler>
    var flights: seq<Option<Flight>>
    var count: nat                     // events published so far: the stamp of the next one
    ghost var published: seq<Envelope>
    ghost var delivered: seq<Delivery>

    ghost function View(): Bus
      reads this
    {
      Bus(size, laneSize, workers, hash, seqs, buffers, lanes, handlers, flights, published, delivered)
    }

    ghost predicate Valid()
      reads this
    {
      count == |published| && size > 0
    }

    constructor (size: int, workers: int, laneSize: int, hash: string -> int)
      ensures Valid() && View() == New(size, workers, laneSize, hash)
    {
      this.size := Max(16, size);
      this.laneSize := Max(16, laneSize);
      this.workers := Max(1, workers);
      this.hash := hash;
      seqs, buffers, lanes, handlers, flights, count := map[], map[], [], [], [], 0;
      published, delivered := [], [];
    }

    /** `buffer.append` on the bounded deque. */
    method Append(e: Envelope)
      requires size > 0
      modifies `buffers
      ensures buffers == old(buffers)[e.account := LastN(Get(old(buffers), e.account, []) + [e], size)]
    {
      var buffer := Get(buffers, e.account, []) + [e];
      ghost var grown, gone := buffer, 0;
      while |buffer| > size
        invariant gone <= |grown| && buffer == grown[gone..] && (gone > 0 ==> |buffer| >= size)
      {
        buffer := buffer[1..];
        gone := gone + 1;
      }
      buffers := buffers[e.account := buffer];
    }

    /** The lane's part of `publish`. */
    method Enqueue(e: Envelope)
      requires Valid()
      modifies `lanes, `count, `published
      ensures Valid() && View() == Published(old(View()), e)
    {
      var job := Job(e, count);
      var lane := LaneFor(hash, workers, e);
      if handlers != [] && lane < |lanes| {
        var queued := lanes[lane];
        if laneSize > 0 && |queued| >= laneSize {
          queued := queued[1..];
        }
        lanes := lanes[lane := queued + [job]];
      }
      count := count + 1;
      published := published + [e];
    }

    /** `emit`, given what the account's state file holds. */
    method Emit(account: string, kind: string, chatId: Option<int>, stored: int) returns (e: Envelope)
      requires Valid()
      modifies `seqs, `buffers, `lanes, `count, `published
      ensures Valid() && e == NextEnvelope(old(View()), account, kind, chatId, stored)
      ensures View() == Emitted(old(View()), e)
    {
      var number := Get(seqs, account, stored) + 1;
      e := Envelope(number, account, kind, chatId);
      seqs := seqs[account := number];
      Append(e);
      Enqueue(e);
    }

    /** `replay` */
    method ReplaySince(account: string, since: Option<int>) returns (events: seq<Envelope>, lost: Option<int>)
      ensures (events, lost) == Replay(View(), account, since)
    {
      events, lost := [], None;
      var buffer := Get(buffers, account, []);
      if since.None? || buffer == [] {
        return;
      }
      if since.value + 1 < buffer[0].seqNo {
        lost := Some(buffer[0].seqNo - since.value - 1);
      }
      var i := 0;
      while i < |buffer|
        invariant i <= |buffer| && events == Newer(buffer[..i], since.value)
      {
        assert buffer[..i + 1][..i] == buffer[..i];
        if buffer[i].seqNo > since.value {
          events := events + [buffer[i]];
        }
        i := i + 1;
      }
      assert buffer[..i] == buffer;
    }

    method StartWorkers()
      requires Valid()
      modifies `lanes, `flights
      ensures Valid() && View() == Started(old(View()))
    {
      lanes := seq(workers, (i: int) => []);
      flights := seq(workers, (i: int) => None);
    }

    method AddHandler(h: Handler)
      requires Valid()
      modifies `handlers
      ensures Valid() && View() == HandlerAdded(old(View()), h)
    {
      handlers := handlers + [h];
    }

    method RemoveHandler(h: Handler)
      requires Valid()
      modifies `handlers
      ensures Valid() && View() == HandlerRemoved(old(View()), h)
    {
      if h in handlers {
        handlers := handlers[..IndexOf(handlers, h)] + handlers[IndexOf(handlers, h) + 1..];
      }
    }

    /** `_worker`: the next event of the lane, and a snapshot of the handlers. */
    method Take(lane: nat)
      requires Valid() && Enabled(View(), Event.Take(lane))
      modifies `lanes, `flights
      ensures Valid() && View() == Taken(old(View()), lane)
    {
      flights := flights[lane := Some(Flight(lanes[lane][0], handlers))];
      lanes := lanes[lane := lanes[lane][1..]];
    }

    /** `_worker`: one turn of its loop over the handlers. */
    method Hand(lane: nat) returns (to: Option<Handler>)
      requires Valid() && Enabled(View(), Event.Hand(lane))
      modifies `flights, `delivered
      ensures Valid() && View() == Handed(old(View()), lane)
      ensures to.Some? ==> delivered == old(delivered) + [Delivery(to.value, old(flights)[lane].value.job)]
    {
      var f := flights[lane].value;
      if f.left == [] {
        flights := flights[lane := None];
        return None;
      }
      delivered := delivered + [Delivery(f.left[0], f.job)];
      flights := flights[lane := Some(f.(left := f.left[1..]))];
      to := Some(f.left[0]);
    }
  }
}
