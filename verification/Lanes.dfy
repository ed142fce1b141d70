/** What becomes of an event once it is published: it waits in its lane, is dropped from a full one, or is taken by the
    lane's worker, and then every handler registered at that moment is called with it, once and in order. */
module Lanes {
  import opened Basics
  import opened EventBuses

  /** The handlers an event was handed to, in order. */
  function HandedTo(delivered: seq<Delivery>, job: Job): seq<Handler> {
    if delivered == [] then []
    else
      HandedTo(delivered[..|delivered| - 1], job)
      + if delivered[|delivered| - 1].job == job then [delivered[|delivered| - 1].to] else []
  }

  lemma HandedOneMore(delivered: seq<Delivery>, d: Delivery, job: Job)
    ensures HandedTo(delivered + [d], job) == HandedTo(delivered, job) + if d.job == job then [d.to] else []
  {
    assert (delivered + [d])[..|delivered|] == delivered;
  }

  lemma {:induction false} NeverHanded(delivered: seq<Delivery>, job: Job)
    requires forall i :: 0 <= i < |delivered| ==> delivered[i].job != job
    ensures HandedTo(delivered, job) == []
  {
    if delivered != [] { NeverHanded(delivered[..|delivered| - 1], job); }
  }

  // ---- a job that was taken -----------------------------------------------------------------------------

  predicate InFlight(b: Bus, lane: nat, job: Job) {
    lane < |b.flights| && b.flights[lane].Some? && b.flights[lane].value.job == job
  }

  /** The job has left its lane, and its handlers are called one after the other: those called so far and those left
      are the ones that were registered when it was taken. */
  ghost predicate Passing(b: Bus, lane: nat, job: Job, handlers: seq<Handler>) {
    && lane < |b.lanes| == |b.flights| && Belongs(b, lane, job)
    && (forall i :: 0 <= i < |b.lanes[lane]| ==> job.stamp < b.lanes[lane][i].stamp)
    && HandedTo(b.delivered, job) + (if InFlight(b, lane, job) then b.flights[lane].value.left else []) == handlers
  }

  lemma TakeIsPassing(b: Bus, lane: nat)
    requires LanesOk(b) && Enabled(b, Take(lane))
    ensures Passing(Taken(b, lane), lane, b.lanes[lane][0], b.handlers)
  {
    var job, t := b.lanes[lane][0], Taken(b, lane);
    assert LaneOk(b, lane);
    forall i | 0 <= i < |b.delivered| ensures b.delivered[i].job != job { assert DeliveredOk(b, b.delivered[i]); }
    NeverHanded(t.delivered, job);
    forall i | 0 <= i < |t.lanes[lane]| ensures job.stamp < t.lanes[lane][i].stamp {
      assert t.lanes[lane][i] == b.lanes[lane][i + 1];
    }
    assert t.flights[lane] == Some(Flight(job, b.handlers));
  }

  lemma PublishKeepsPassing(b: Bus, e: Envelope, lane: nat, job: Job, handlers: seq<Handler>)
    requires Passing(b, lane, job, handlers)
    ensures Passing(Emitted(b, e), lane, job, handlers)
  {
    var t := Emitted(b, e);
    forall i | 0 <= i < |t.lanes[lane]| ensures job.stamp < t.lanes[lane][i].stamp {
      assert t.lanes[lane][i].stamp == |b.published| || t.lanes[lane][i] in b.lanes[lane];
    }
  }

  lemma TakeKeepsPassing(b: Bus, other: nat, lane: nat, job: Job, handlers: seq<Handler>)
    requires LanesOk(b) && Enabled(b, Take(other)) && Passing(b, lane, job, handlers)
    ensures Passing(Taken(b, other), lane, job, handlers)
  {
    var t := Taken(b, other);
    if other == lane {
      assert !InFlight(b, lane, job) && !InFlight(t, lane, job);
      forall i | 0 <= i < |t.lanes[lane]| ensures job.stamp < t.lanes[lane][i].stamp {
        assert t.lanes[lane][i] == b.lanes[lane][i + 1];
      }
    }
  }

  lemma HandKeepsPassing(b: Bus, other: nat, lane: nat, job: Job, handlers: seq<Handler>)
    requires LanesOk(b) && Enabled(b, Hand(other)) && Passing(b, lane, job, handlers)
    ensures Passing(Handed(b, other), lane, job, handlers)
  {
    assert LaneOk(b, other);
    assert b.flights[other].value.job == job ==> other == lane;
    if b.flights[other].value.left != [] { HandsOneMore(b, other, lane, job, handlers); }
  }

  lemma HandsOneMore(b: Bus, other: nat, lane: nat, job: Job, handlers: seq<Handler>)
    requires other < |b.flights| && b.flights[other].Some? && b.flights[other].value.left != []
    requires b.flights[other].value.job == job ==> other == lane
    requires Passing(b, lane, job, handlers)
    ensures Passing(Handed(b, other), lane, job, handlers)
  {
    var f, t := b.flights[other].value, Handed(b, other);
    HandedOneMore(b.delivered, Delivery(f.left[0], f.job), job);
    if f.job == job {
      assert t.flights[lane] == Some(Flight(job, f.left[1..]));
      OneFromTheLeft(HandedTo(b.delivered, job), f.left);
    }
  }

  lemma OneFromTheLeft(done: seq<Handler>, left: seq<Handler>)
    requires left != []
    ensures done + [left[0]] + left[1..] == done + left
  {
    assert [left[0]] + left[1..] == left;
  }

  lemma NextKeepsPassing(b: Bus, e: Event, lane: nat, job: Job, handlers: seq<Handler>)
    requires LanesOk(b) && Enabled(b, e) && !e.Start? && Passing(b, lane, job, handlers)
    ensures Passing(Next(b, e), lane, job, handlers)
  {
    match e
    case Emit(account, kind, chatId, stored) =>
      PublishKeepsPassing(b, NextEnvelope(b, account, kind, chatId, stored), lane, job, handlers);
    case Take(other) => TakeKeepsPassing(b, other, lane, job, handlers);
    case Hand(other) => HandKeepsPassing(b, other, lane, job, handlers);
    case AddHandler(_) =>
    case RemoveHandler(_) =>
  }

  ghost predicate NoStart(events: seq<Event>, m: nat, n: nat) {
    forall i :: m <= i < n && i < |events| ==> !events[i].Start?
  }

  lemma {:induction false} RunPasses(size: int, workers: int, laneSize: int, hash: string -> int,
                                     states: seq<Bus>, events: seq<Event>, k: nat, n: nat, lane: nat)
    requires IsRun(New(size, workers, laneSize, hash), states, events) && k < n < |states|
    requires events[k] == Take(lane) && NoStart(events, k, n)
    ensures Enabled(states[k], Take(lane))
    ensures Passing(states[n], lane, states[k].lanes[lane][0], states[k].handlers)
  {
    assert Takes(states[k], events[k], states[k + 1]);
    if n == k + 1 {
      RunKeeps(size, workers, laneSize, hash, states, events, k);
      TakeIsPassing(states[k], lane);
    } else {
      RunPasses(size, workers, laneSize, hash, states, events, k, n - 1, lane);
      RunEventKeepsPassing(size, workers, laneSize, hash, states, events, n, lane, states[k].lanes[lane][0],
                           states[k].handlers);
    }
  }

  lemma RunEventKeepsPassing(size: int, workers: int, laneSize: int, hash: string -> int,
                             states: seq<Bus>, events: seq<Event>, n: nat, lane: nat, job: Job, handlers: seq<Handler>)
    requires IsRun(New(size, workers, laneSize, hash), states, events) && 0 < n < |states|
    requires !events[n - 1].Start? && Passing(states[n - 1], lane, job, handlers)
    ensures Passing(states[n], lane, job, handlers)
  {
    assert Takes(states[n - 1], events[n - 1], states[n]);
    RunKeeps(size, workers, laneSize, hash, states, events, n - 1);
    NextKeepsPassing(states[n - 1], events[n - 1], lane, job, handlers);
  }

  /** In every interleaving: from the moment a worker takes an event out of its lane, the handlers it has been handed to
      are the first of those registered at that moment, in their order, each once; and when the worker is done with it,
      all of them. Handlers that come or go meanwhile make no difference. */
  lemma EveryHandlerIsCalled(size: int, workers: int, laneSize: int, hash: string -> int,
                             states: seq<Bus>, events: seq<Event>, k: nat, n: nat, lane: nat)
    requires IsRun(New(size, workers, laneSize, hash), states, events) && k < n < |states|
    requires events[k] == Take(lane) && NoStart(events, k, n)
    ensures Enabled(states[k], Take(lane))
    ensures var job := states[k].lanes[lane][0];
      && HandedTo(states[n].delivered, job) <= states[k].handlers
      && (!InFlight(states[n], lane, job) ==> HandedTo(states[n].delivered, job) == states[k].handlers)
  {
    RunPasses(size, workers, laneSize, hash, states, events, k, n, lane);
    assert HandedTo(states[n].delivered, states[k].lanes[lane][0]) + []
        == HandedTo(states[n].delivered, states[k].lanes[lane][0]);
  }

  // ---- a job that was published ---------------------------------------------------------------------------

  /** There are no lanes before the workers have started, and as many as workers from then on. */
  ghost predicate LanesFit(b: Bus) {
    b.workers >= 1 && b.laneSize >= 1 && (b.lanes == [] || |b.lanes| == b.workers)
  }

  lemma {:induction false} RunFits(size: int, workers: int, laneSize: int, hash: string -> int,
                                   states: seq<Bus>, events: seq<Event>, n: nat)
    requires IsRun(New(size, workers, laneSize, hash), states, events) && n < |states|
    ensures LanesFit(states[n])
  {
    if n > 0 {
      RunFits(size, workers, laneSize, hash, states, events, n - 1);
      assert Takes(states[n - 1], events[n - 1], states[n]);
    }
  }

  predicate Waits(b: Bus, lane: nat, job: Job) {
    lane < |b.lanes| && job in b.lanes[lane]
  }

  predicate IsOldest(b: Bus, lane: nat, job: Job) {
    lane < |b.lanes| && b.lanes[lane] != [] && b.lanes[lane][0] == job
  }

  /** The event that takes the oldest of a lane out of it: its worker, or an event that finds the lane full. */
  ghost predicate TakesOldest(b: Bus, e: Event, lane: nat) {
    || e == Take(lane)
    || (e.Emit? && lane < |b.lanes| && |b.lanes[lane]| >= b.laneSize
        && LaneFor(b.hash, b.workers, NextEnvelope(b, e.account, e.kind, e.chatId, e.stored)) == lane)
  }

  lemma QueuedKeeps(lane: seq<Job>, laneSize: nat, job: Job, x: Job)
    requires x in lane && !(laneSize > 0 && |lane| >= laneSize && lane[0] == x)
    ensures x in Queued(lane, laneSize, job)
  {
    var i :| 0 <= i < |lane| && lane[i] == x;
    if laneSize > 0 && |lane| >= laneSize { assert lane[1..][i - 1] == x; }
  }

  lemma EmitKeepsWaiting(b: Bus, e: Envelope, lane: nat, job: Job)
    requires LanesFit(b) && Waits(b, lane, job)
    requires !(IsOldest(b, lane, job) && |b.lanes[lane]| >= b.laneSize && LaneFor(b.hash, b.workers, e) == lane)
    ensures Waits(Emitted(b, e), lane, job)
  {
    if b.handlers != [] && LaneFor(b.hash, b.workers, e) == lane {
      QueuedKeeps(b.lanes[lane], b.laneSize, Job(e, |b.published|), job);
    }
  }

  lemma NextKeepsWaiting(b: Bus, e: Event, lane: nat, job: Job)
    requires LanesFit(b) && Enabled(b, e) && !e.Start? && Waits(b, lane, job)
    requires !(IsOldest(b, lane, job) && TakesOldest(b, e, lane))
    ensures Waits(Next(b, e), lane, job)
  {
    match e
    case Emit(account, kind, chatId, stored) =>
      EmitKeepsWaiting(b, NextEnvelope(b, account, kind, chatId, stored), lane, job);
    case Take(other) =>
      if other == lane {
        var i :| 0 <= i < |b.lanes[lane]| && b.lanes[lane][i] == job;
        assert b.lanes[lane][1..][i - 1] == job;
      }
    case _ =>
  }

  /** The envelope an event of a run publishes, with its stamp. */
  function PublishedBy(b: Bus, e: Event): Job
    requires e.Emit?
  {
    Job(NextEnvelope(b, e.account, e.kind, e.chatId, e.stored), |b.published|)
  }

  lemma EmitQueues(b: Bus, e: Event)
    requires LanesFit(b) && e.Emit? && b.handlers != [] && b.lanes != []
    ensures Waits(Next(b, e), LaneOf(b, PublishedBy(b, e)), PublishedBy(b, e))
  {
    var job := PublishedBy(b, e);
    var lane := LaneOf(b, job);
    var queued := Queued(b.lanes[lane], b.laneSize, job);
    assert queued[|queued| - 1] == job;
  }

  /** In every interleaving nothing published is lost in silence: an event published while there are handlers and lanes
      waits in the lane of its chat until, as the oldest one there, it is taken by the worker of the lane, or dropped
      by an event that finds the lane full. */
  lemma {:induction false} PublishedIsQueued(size: int, workers: int, laneSize: int, hash: string -> int,
                                             states: seq<Bus>, events: seq<Event>, k: nat, n: nat)
    requires IsRun(New(size, workers, laneSize, hash), states, events) && k < n < |states|
    requires events[k].Emit? && states[k].handlers != [] && states[k].lanes != [] && NoStart(events, k, n)
    ensures var job := PublishedBy(states[k], events[k]);
      var lane := LaneOf(states[k], job);
      || Waits(states[n], lane, job)
      || exists j :: k < j < n && IsOldest(states[j], lane, job) && TakesOldest(states[j], events[j], lane)
  {
    var job := PublishedBy(states[k], events[k]);
    var lane := LaneOf(states[k], job);
    RunFits(size, workers, laneSize, hash, states, events, n - 1);
    assert Takes(states[n - 1], events[n - 1], states[n]);
    if n == k + 1 {
      EmitQueues(states[k], events[k]);
    } else {
      PublishedIsQueued(size, workers, laneSize, hash, states, events, k, n - 1);
      if Waits(states[n - 1], lane, job) && !(IsOldest(states[n - 1], lane, job)
                                              && TakesOldest(states[n - 1], events[n - 1], lane)) {
        NextKeepsWaiting(states[n - 1], events[n - 1], lane, job);
      }
    }
  }

  // ---- what comes in ------------------------------------------------------------------------------------------

  /** An emitted event is published as it is, and nothing else is. */
  ghost predicate Publishes(b: Bus, e: Event, t: Bus) {
    if e.Emit? then
      && |t.published| == |b.published| + 1 && t.published[..|b.published|] == b.published
      && var last := t.published[|b.published|];
         last.account == e.account && last.kind == e.kind && last.chatId == e.chatId
    else t.published == b.published
  }

  /** A handler joins at the end, and goes from its first place. */
  ghost predicate Registers(b: Bus, e: Event, t: Bus) {
    match e
    case AddHandler(h) => t.handlers == b.handlers + [h]
    case RemoveHandler(h) =>
      if h !in b.handlers then t.handlers == b.handlers
      else exists i :: 0 <= i < |b.handlers| && b.handlers[i] == h && h !in b.handlers[..i]
                       && t.handlers == b.handlers[..i] + b.handlers[i + 1..]
    case _ => t.handlers == b.handlers
  }

  /** The workers start with a lane each, empty. */
  ghost predicate Starts(b: Bus, e: Event, t: Bus) {
    e.Start? ==>
      && |t.lanes| == |t.flights| == b.workers
      && forall i :: 0 <= i < b.workers ==> t.lanes[i] == [] && t.flights[i] == None
  }

  lemma PopIsFirst(s: seq<Handler>, h: Handler)
    requires h in s
    ensures exists i :: 0 <= i < |s| && s[i] == h && h !in s[..i] && Pop(s, h) == s[..i] + s[i + 1..]
  {
    IndexIsFirst(s, h);
  }

  lemma {:induction false} IndexIsFirst(s: seq<Handler>, h: Handler)
    requires h in s
    ensures h !in s[..IndexOf(s, h)]
  {
    if s[0] != h {
      IndexIsFirst(s[1..], h);
      assert s[..IndexOf(s, h)] == [s[0]] + s[1..][..IndexOf(s[1..], h)];
    }
  }

  /** In every interleaving the bus knows just the events it was given and the handlers registered with it. */
  lemma BusTakesWhatComes(size: int, workers: int, laneSize: int, hash: string -> int,
                          states: seq<Bus>, events: seq<Event>, n: nat)
    requires IsRun(New(size, workers, laneSize, hash), states, events) && n < |events|
    ensures Publishes(states[n], events[n], states[n + 1])
    ensures Registers(states[n], events[n], states[n + 1])
    ensures Starts(states[n], events[n], states[n + 1])
  {
    assert Takes(states[n], events[n], states[n + 1]);
    if events[n].RemoveHandler? && events[n].h in states[n].handlers { PopIsFirst(states[n].handlers, events[n].h); }
  }
}
