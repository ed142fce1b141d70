/** `Subscriber` of `tlgr/daemon/events.py` and its consumer `pump_events` of `tlgr/daemon/stream.py`:
    a bounded queue that drops its oldest event, and lag frames that say how many were dropped. */
module Subscribers {
  import opened Basics

  /** What has happened: the events offered while open, the positions among them of those the consumer got,
      the lags it took, and how many events were dropped between each get and the lag taken after it. */
  datatype Log<E> = Log(offered: seq<E>, got: seq<nat>, lags: seq<nat>, lates: seq<int>)

  /** A subscription as a value. `maxsize <= 0` is no bound. */
  datatype Feed<E> = Feed(maxsize: int, queue: seq<E>, dropped: nat, closed: bool, log: Log<E>) {

    /** The position of the next event to come out of the queue. */
    function Head(): int {
      |log.offered| - |queue|
    }

    predicate Full() {
      maxsize > 0 && |queue| >= maxsize
    }

    function Offered(event: E): Feed<E> {
      if closed then this
      else
        var log' := log.(offered := log.offered + [event]);
        if Full() then this.(queue := queue[1..] + [event], dropped := dropped + 1, log := log')
        else this.(queue := queue + [event], log := log')
    }

    function Got(): Feed<E>
      requires queue != [] && Head() >= 0
    {
      this.(queue := queue[1..], log := log.(got := log.got + [Head()]))
    }

    function LagTaken(): Feed<E>
      requires log.got != []
    {
      this.(dropped := 0,
            log := log.(lags := log.lags + [dropped], lates := log.lates + [Head() - log.got[|log.got| - 1] - 1]))
    }

    // ---- what every step keeps --------------------------------------------------------------

    /** The queue is what is left of the events offered: a contiguous suffix of them. */
    ghost predicate IsSuffix() {
      && |queue| <= |log.offered|
      && queue == log.offered[Head()..]
      && (maxsize > 0 ==> |queue| <= maxsize)
    }

    /** The consumer moves forward only. */
    ghost predicate GoesForward() {
      && (forall i, j :: 0 <= i < j < |log.got| ==> log.got[i] < log.got[j])
      && (forall i :: 0 <= i < |log.got| ==> log.got[i] < Head())
    }

    /** Where the consumer stands after its first `k` events. */
    function After(k: int): int
      requires k <= |log.got|
    {
      if k <= 0 then 0 else log.got[k - 1] + 1
    }

    function Late(k: int): int
      requires k <= |log.lates|
    {
      if k <= 0 then 0 else log.lates[k - 1]
    }

    /** The events skipped between the `k`-th event the consumer got and the one before it. */
    function Skipped(k: nat): int
      requires k < |log.got|
    {
      log.got[k] - After(k)
    }

    /** What was dropped and not yet reported. */
    ghost predicate Counted() {
      var n := |log.lags|;
      && |log.lates| == n && n <= |log.got| <= n + 1
      && dropped == Head() - After(n) - Late(n) - (|log.got| - n)
    }

    /** Each lag is what was skipped before its event, put off by what was dropped while it was being taken. */
    ghost predicate LagsOk() {
      && |log.lags| == |log.lates| <= |log.got|
      && forall k :: 0 <= k < |log.lags| ==> log.lags[k] == Skipped(k) + log.lates[k] - Late(k)
    }

    ghost predicate Inv() {
      IsSuffix() && GoesForward() && Counted() && LagsOk()
    }

    lemma OfferedKeeps(event: E)
      requires Inv()
      ensures Offered(event).Inv()
    {
      var f := Offered(event);
      if !closed {
        assert queue + [event] == f.log.offered[Head()..];
        assert Full() ==> queue[1..] + [event] == f.log.offered[Head() + 1..];
        assert forall k :: 0 <= k <= |log.got| ==> f.After(k) == After(k);
        assert forall k :: 0 <= k <= |log.lates| ==> f.Late(k) == Late(k);
      }
    }

    lemma GotKeeps()
      requires Inv() && queue != [] && |log.got| == |log.lags|
      ensures Got().Inv()
      ensures Got().log.got[|log.got|] < |log.offered| && queue[0] == log.offered[Got().log.got[|log.got|]]
    {
      var f := Got();
      assert forall k :: 0 <= k <= |log.got| ==> f.After(k) == After(k);
      assert forall k :: 0 <= k <= |log.lates| ==> f.Late(k) == Late(k);
    }

    lemma LagTakenTells()
      requires Counted() && LagsOk() && |log.got| == |log.lags| + 1
      ensures LagTaken().LagsOk()
    {
      var f := LagTaken();
      var n := |log.lags|;
      assert dropped == Head() - After(n) - Late(n) - 1;
      forall k | 0 <= k < |f.log.lags| ensures f.log.lags[k] == f.Skipped(k) + f.log.lates[k] - f.Late(k) {
        assert f.After(k) == After(k) && f.Late(k) == Late(k);
        if k < n {
          assert log.lags[k] == Skipped(k) + log.lates[k] - Late(k);
          assert f.log.lags[k] == log.lags[k] && f.log.lates[k] == log.lates[k];
        } else {
          assert f.log.lags[n] == dropped && f.log.lates[n] == Head() - log.got[n] - 1;
        }
      }
    }

    lemma LagTakenKeeps()
      requires Inv() && |log.got| == |log.lags| + 1
      ensures LagTaken().Inv()
    {
      var f := LagTaken();
      assert f.LagsOk() by { LagTakenTells(); }
      assert f.Counted();
    }
  }

  function Sum(s: seq<int>): int {
    if s == [] then 0 else Sum(s[..|s| - 1]) + s[|s| - 1]
  }

  // ---- runs ----------------------------------------------------------------------------------

  datatype Step<E> = Offer(event: E) | Get | TakeLag | Close

  predicate Enabled<E>(f: Feed<E>, step: Step<E>) {
    match step
    case Offer(_) => true
    case Get => f.queue != [] && f.Head() >= 0 && |f.log.got| == |f.log.lags|
    case TakeLag => |f.log.got| == |f.log.lags| + 1
    case Close => true
  }

  function Next<E>(f: Feed<E>, step: Step<E>): Feed<E>
    requires Enabled(f, step)
  {
    match step
    case Offer(event) => f.Offered(event)
    case Get => f.Got()
    case TakeLag => f.LagTaken()
    case Close => f.(closed := true)
  }

  function New<E>(maxsize: int): Feed<E> {
    Feed(maxsize, [], 0, false, Log([], [], [], []))
  }

  /** The feed after some steps, however offers and the consumer interleave; None when one could not be taken. */
  function Run<E>(maxsize: int, steps: seq<Step<E>>): Option<Feed<E>> {
    if steps == [] then Some(New(maxsize))
    else
      var before := Run(maxsize, steps[..|steps| - 1]);
      if before.Some? && Enabled(before.value, steps[|steps| - 1])
      then Some(Next(before.value, steps[|steps| - 1])) else None
  }

  lemma {:induction false} RunKeeps<E>(maxsize: int, steps: seq<Step<E>>)
    ensures Run(maxsize, steps).Some? ==> Run(maxsize, steps).value.Inv()
  {
    if steps != [] {
      var front, last := steps[..|steps| - 1], steps[|steps| - 1];
      RunKeeps(maxsize, front);
      if Run(maxsize, front).Some? {
        var f := Run(maxsize, front).value;
        match last
        case Offer(event) => f.OfferedKeeps(event);
        case Get => if Enabled(f, last) { f.GotKeeps(); }
        case TakeLag => if Enabled(f, last) { f.LagTakenKeeps(); }
        case Close =>
      }
    }
  }

  lemma {:induction false} LagsAddUp<E>(f: Feed<E>, n: nat)
    requires f.LagsOk() && n <= |f.log.lags|
    ensures Sum(f.log.lags[..n]) == f.After(n) - n + f.Late(n)
  {
    if n > 0 {
      LagsAddUp(f, n - 1);
      assert f.log.lags[..n][..n - 1] == f.log.lags[..n - 1];
      assert f.log.lags[n - 1] == f.Skipped(n - 1) + f.log.lates[n - 1] - f.Late(n - 1);
    }
  }

  /** Nothing is lost silently: in every interleaving, what was offered is what the consumer got, what waits in
      the queue, what it was told it lost, and what it will be told with the next frame. */
  lemma {:induction false} NothingLostSilently<E>(maxsize: int, steps: seq<Step<E>>)
    requires Run(maxsize, steps).Some?
    ensures var f := Run(maxsize, steps).value;
      && |f.log.offered| == |f.log.got| + |f.queue| + Sum(f.log.lags) + f.dropped
      && |f.queue| <= |f.log.offered| && f.queue == f.log.offered[|f.log.offered| - |f.queue|..]
  {
    RunKeeps(maxsize, steps);
    var f := Run(maxsize, steps).value;
    LagsAddUp(f, |f.log.lags|);
    assert f.log.lags[..|f.log.lags|] == f.log.lags;
  }

  predicate Closes<E>(steps: seq<Step<E>>) {
    exists i :: 0 <= i < |steps| && steps[i].Close?
  }

  /** The events offered before the subscription was closed. */
  function Taken<E>(steps: seq<Step<E>>): seq<E> {
    if steps == [] then []
    else
      var front, last := steps[..|steps| - 1], steps[|steps| - 1];
      Taken(front) + if last.Offer? && !Closes(front) then [last.event] else []
  }

  lemma {:induction false} OffersAreTaken<E>(maxsize: int, steps: seq<Step<E>>)
    requires Run(maxsize, steps).Some?
    ensures var f := Run(maxsize, steps).value;
      f.log.offered == Taken(steps) && (f.closed <==> Closes(steps)) && f.maxsize == maxsize
  {
    if steps != [] {
      var front, last := steps[..|steps| - 1], steps[|steps| - 1];
      OffersAreTaken(maxsize, front);
      assert steps == front + [last];
    }
  }

  /** Where the queue starts: right after what the consumer got, unless more than fits was offered since. */
  ghost predicate Waits<E>(f: Feed<E>) {
    f.Head() == if f.maxsize > 0 && |f.log.offered| - f.maxsize > f.After(|f.log.got|) then |f.log.offered| - f.maxsize
                else f.After(|f.log.got|)
  }

  lemma NextWaits<E>(f: Feed<E>, step: Step<E>)
    requires f.IsSuffix() && Enabled(f, step) && Waits(f)
    ensures Waits(Next(f, step))
  {
    var t := Next(f, step);
    assert t.After(|t.log.got|) == if step.Get? then f.Head() + 1 else f.After(|f.log.got|);
    assert step.Offer? && !f.closed ==> t.Head() == if f.Full() then f.Head() + 1 else f.Head();
  }

  lemma {:induction false} RunWaits<E>(maxsize: int, steps: seq<Step<E>>)
    requires Run(maxsize, steps).Some?
    ensures Waits(Run(maxsize, steps).value)
  {
    if steps != [] {
      var front, last := steps[..|steps| - 1], steps[|steps| - 1];
      RunWaits(maxsize, front);
      RunKeeps(maxsize, front);
      NextWaits(Run(maxsize, front).value, last);
    }
  }

  /** The position after the last event the consumer got. */
  function Onward<E>(f: Feed<E>): nat {
    if f.log.got == [] then 0 else f.log.got[|f.log.got| - 1] + 1
  }

  lemma WaitingIs<E>(f: Feed<E>)
    requires f.Inv() && Waits(f)
    ensures Onward(f) <= |f.log.offered|
    ensures var rest := f.log.offered[Onward(f)..]; f.queue == if f.maxsize > 0 then LastN(rest, f.maxsize) else rest
  {
    assert f.After(|f.log.got|) == Onward(f);
    assert Onward(f) <= f.Head();
  }

  /** Events are dropped only when they must be: in every interleaving what waits is everything offered before the close
      that came after the last event the consumer got, or the last `maxsize` of them when there are more. */
  lemma WaitingIsLatest<E>(maxsize: int, steps: seq<Step<E>>)
    requires Run(maxsize, steps).Some?
    ensures var f, offered := Run(maxsize, steps).value, Taken(steps);
      Onward(f) <= |offered|
      && f.queue == if maxsize > 0 then LastN(offered[Onward(f)..], maxsize) else offered[Onward(f)..]
  {
    RunKeeps(maxsize, steps);
    RunWaits(maxsize, steps);
    OffersAreTaken(maxsize, steps);
    WaitingIs(Run(maxsize, steps).value);
  }

  /** The lag before an event is the number of events skipped since the one before it, if and only if as many
      events were dropped between this get and its lag as between the get before and its lag. */
  lemma LagIsExactWhen<E>(maxsize: int, steps: seq<Step<E>>, k: nat)
    requires Run(maxsize, steps).Some? && k < |Run(maxsize, steps).value.log.lags|
    ensures var f := Run(maxsize, steps).value;
      |f.log.lates| == |f.log.lags| <= |f.log.got| && (f.log.lags[k] == f.Skipped(k) <==> f.log.lates[k] == f.Late(k))
  {
    RunKeeps(maxsize, steps);
  }

  /** Each get is followed by its lag at once. */
  ghost predicate Together<E>(steps: seq<Step<E>>) {
    forall i :: 0 <= i < |steps| && steps[i].TakeLag? ==> i > 0 && steps[i - 1].Get?
  }

  lemma {:induction false} TogetherIsNeverLate<E>(maxsize: int, steps: seq<Step<E>>)
    requires Together(steps) && Run(maxsize, steps).Some?
    ensures forall k :: 0 <= k < |Run(maxsize, steps).value.log.lates| ==> Run(maxsize, steps).value.log.lates[k] == 0
  {
    if steps != [] {
      var front, last := steps[..|steps| - 1], steps[|steps| - 1];
      assert Together(front);
      TogetherIsNeverLate(maxsize, front);
      if last.TakeLag? {
        assert front[|front| - 1].Get?;
        var f := Run(maxsize, front[..|front| - 1]).value;
        assert Run(maxsize, front).value == f.Got();
      }
    }
  }

  /** When get and lag are one step, every lag frame is exact. */
  lemma LagFramesAreExact<E>(maxsize: int, steps: seq<Step<E>>, k: nat)
    requires Together(steps) && Run(maxsize, steps).Some? && k < |Run(maxsize, steps).value.log.lags|
    ensures var f := Run(maxsize, steps).value;
      k < |f.log.got| && f.log.lags[k] == f.Skipped(k)
  {
    RunKeeps(maxsize, steps);
    TogetherIsNeverLate(maxsize, steps);
    LagIsExactWhen(maxsize, steps, k);
  }

  /** When they are not, a lag can be told with the wrong event: here nothing was skipped before the first
      event, and yet its lag is 1. */
  lemma LateLagIsMisplaced()
    ensures var run := Run(1, [Offer(10), Get, Offer(11), Offer(12), TakeLag]);
      run.Some? && run.value.log.got == [0] && run.value.log.lags == [1] && run.value.Skipped(0) == 0
  {
    var s: seq<Step<int>> := [];
    OneMoreStep(1, s, Offer(10));
    OneMoreStep(1, s + [Offer(10)], Get);
    OneMoreStep(1, s + [Offer(10)] + [Get], Offer(11));
    OneMoreStep(1, s + [Offer(10)] + [Get] + [Offer(11)], Offer(12));
    OneMoreStep(1, s + [Offer(10)] + [Get] + [Offer(11)] + [Offer(12)], TakeLag);
    assert s + [Offer(10)] + [Get] + [Offer(11)] + [Offer(12)] + [TakeLag]
      == [Offer(10), Get, Offer(11), Offer(12), TakeLag];
  }

  lemma OneMoreStep<E>(maxsize: int, steps: seq<Step<E>>, step: Step<E>)
    requires Run(maxsize, steps).Some? && Enabled(Run(maxsize, steps).value, step)
    ensures Run(maxsize, steps + [step]) == Some(Next(Run(maxsize, steps).value, step))
  {
    assert (steps + [step])[..|steps|] == steps;
  }

  // ---- the object --------------------------------------------------------------------------------

  class Subscriber<E(==)> {
    const maxsize: int
    var queue: seq<E>
    var dropped: nat
    var closed: bool
    ghost var log: Log<E>

    ghost function View(): Feed<E>
      reads this
    {
      Feed(maxsize, queue, dropped, closed, log)
    }

    constructor (maxsize: int)
      ensures View() == New(maxsize)
    {
      this.maxsize := maxsize;
      queue, dropped, closed := [], 0, false;
      log := Log([], [], [], []);
    }

    /** `offer`: never blocks; when the queue is full the oldest event goes and is counted. */
    method Offer(event: E)
      requires View().Inv()
      modifies this
      ensures View() == old(View()).Offered(event) && View().Inv()
    {
      View().OfferedKeeps(event);
      if closed {
        return;
      }
      if maxsize > 0 && |queue| >= maxsize {
        queue := queue[1..];
        dropped := dropped + 1;
      }
      queue := queue + [event];
      log := log.(offered := log.offered + [event]);
    }

    method Get() returns (event: E)
      requires View().Inv() && queue != [] && |log.got| == |log.lags|
      modifies this
      ensures View() == old(View()).Got() && View().Inv()
      ensures event == old(queue)[0]
    {
      View().GotKeeps();
      log := View().Got().log;
      event := queue[0];
      queue := queue[1..];
    }

    method TakeLag() returns (lag: nat)
      requires View().Inv() && |log.got| == |log.lags| + 1
      modifies this
      ensures View() == old(View()).LagTaken() && View().Inv()
      ensures lag == old(dropped) && log.lags == old(log.lags) + [lag]
    {
      View().LagTakenKeeps();
      log := View().LagTaken().log;
      lag := dropped;
      dropped := 0;
    }

    method Close()
      modifies this
      ensures View() == old(View()).(closed := true)
    {
      closed := true;
    }
  }

  // ---- the consumer ---------------------------------------------------------------------------------

  datatype Frame<E> = Heartbeat | LagFrame(dropped: nat) | EventFrame(event: E)

  /** What reaches the subscription in one turn of `pump_events`: before the get, and while it returns. */
  datatype Turn<E> = Turn(before: seq<E>, between: seq<E>)

  function EventsIn<E>(frames: seq<Frame<E>>): nat {
    if frames == [] then 0
    else EventsIn(frames[..|frames| - 1]) + if frames[|frames| - 1].EventFrame? then 1 else 0
  }

  function LostIn<E>(frames: seq<Frame<E>>): nat {
    if frames == [] then 0
    else LostIn(frames[..|frames| - 1]) + if frames[|frames| - 1].LagFrame? then frames[|frames| - 1].dropped else 0
  }

  lemma OneMoreFrame<E>(frames: seq<Frame<E>>, frame: Frame<E>)
    ensures EventsIn(frames + [frame]) == EventsIn(frames) + if frame.EventFrame? then 1 else 0
    ensures LostIn(frames + [frame]) == LostIn(frames) + if frame.LagFrame? then frame.dropped else 0
  {
    assert (frames + [frame])[..|frames|] == frames;
  }

  method OfferAll<E>(subscriber: Subscriber<E>, events: seq<E>)
    requires subscriber.View().Inv()
    modifies subscriber
    ensures subscriber.View().Inv()
    ensures subscriber.log.got == old(subscriber.log.got) && subscriber.log.lags == old(subscriber.log.lags)
  {
    for i := 0 to |events|
      invariant subscriber.View().Inv()
      invariant subscriber.log.got == old(subscriber.log.got) && subscriber.log.lags == old(subscriber.log.lags)
    {
      subscriber.Offer(events[i]);
    }
  }

  /** The frames of one event: how many were lost before it, if any, and the event itself. */
  method Write<E>(frames: seq<Frame<E>>, lag: nat, event: E) returns (more: seq<Frame<E>>)
    ensures EventsIn(more) == EventsIn(frames) + 1 && LostIn(more) == LostIn(frames) + lag
    ensures |frames| < |more| && more[|more| - 1] == EventFrame(event)
  {
    more := frames;
    if lag > 0 {
      OneMoreFrame(more, LagFrame(lag));
      more := more + [LagFrame(lag)];
    }
    OneMoreFrame(more, EventFrame(event));
    more := more + [EventFrame(event)];
  }

  /** One delivery of `pump_events`: a lag frame if something was dropped, and the event. */
  method Deliver<E>(subscriber: Subscriber<E>, between: seq<E>, frames: seq<Frame<E>>) returns (more: seq<Frame<E>>)
    requires subscriber.View().Inv() && subscriber.queue != []
    requires |subscriber.log.got| == |subscriber.log.lags|
    requires EventsIn(frames) == |subscriber.log.got| && LostIn(frames) == Sum(subscriber.log.lags)
    modifies subscriber
    ensures subscriber.View().Inv() && |subscriber.log.got| == |subscriber.log.lags|
    ensures EventsIn(more) == |subscriber.log.got| && LostIn(more) == Sum(subscriber.log.lags)
    ensures |frames| < |more| && more[|more| - 1] == EventFrame(old(subscriber.queue)[0])
  {
    var event := subscriber.Get();
    OfferAll(subscriber, between);
    ghost var lags := subscriber.log.lags;
    var lag := subscriber.TakeLag();
    assert (lags + [lag])[..|lags|] == lags;
    more := Write(frames, lag, event);
  }

  /** `pump_events`, for as long as the stream lasts: when it ends, the frames written account for every event
      offered, but for those still in the queue and the drops not yet reported. */
  method Pump<E>(subscriber: Subscriber<E>, turns: seq<Turn<E>>) returns (frames: seq<Frame<E>>)
    requires subscriber.View() == New(subscriber.maxsize)
    modifies subscriber
    ensures |subscriber.log.offered|
            == EventsIn(frames) + LostIn(frames) + |subscriber.queue| + subscriber.dropped
  {
    frames := [];
    for i := 0 to |turns|
      invariant subscriber.View().Inv() && |subscriber.log.got| == |subscriber.log.lags|
      invariant EventsIn(frames) == |subscriber.log.got| && LostIn(frames) == Sum(subscriber.log.lags)
    {
      OfferAll(subscriber, turns[i].before);
      if subscriber.queue == [] {
        OneMoreFrame(frames, Heartbeat);
        frames := frames + [Heartbeat];
      } else {
        frames := Deliver(subscriber, turns[i].between, frames);
      }
    }
    ghost var f := subscriber.View();
    LagsAddUp(f, |f.log.lags|);
    assert f.log.lags[..|f.log.lags|] == f.log.lags;
  }
}
