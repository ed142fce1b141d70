/** `tlgr/gateway/pacer.py`: how the slots of one action kind are spread out, and how many fit in an hour.

    `PacerState` is the pacer as a value, with a log of every slot it ever gave
    out; the class below is the object the scheduler holds, proved against it.
    The floor, the rolling cap and the flood hold are statements about the log,
    so they cover whole runs, whoever takes the slots. */
module Pacing {
  import opened Basics

  const HOUR := 3600.0
  const MAX_SLOWDOWN := 8.0
  const SLOWDOWN_RECOVERY := 600.0

  /** `perHour == 0` stands for "no cap" (`None`). */
  datatype Rule = Rule(every: real, perHour: nat)

  /** One slot taken: when, the floor of the rule and the slow-down then in force,
      and the end of the latest flood wait announced before it. */
  datatype Slot = Slot(at: real, every: real, slowdown: real, floodUntil: real) {
    /** When the next slot may open at the earliest. */
    function Until(): real {
      at + Gap(every, slowdown)
    }
  }

  /** The floor of a rule, widened by the slow-down. */
  function Gap(every: real, slowdown: real): real {
    every * slowdown
  }

  /** One slot taken while an hourly cap was in force. */
  datatype CappedSlot = CappedSlot(at: real, cap: nat)

  datatype PacerLog = PacerLog(seen: real, slots: seq<Slot>, capped: seq<CappedSlot>, floodUntil: real)

  datatype PacerState = PacerState(
    rule: Rule, nextAt: real, slowdown: real, lastFloodAt: real, recent: seq<real>, log: PacerLog)

  // ---- operations -----------------------------------------------------------

  function Fresh(rule: Rule): PacerState {
    PacerState(rule, 0.0, 1.0, 0.0, [], PacerLog(0.0, [], [], 0.0))
  }

  /** How many of the oldest slots have left the rolling hour. */
  function Stale(recent: seq<real>, now: real): (n: nat)
    ensures n <= |recent|
    ensures forall i :: 0 <= i < n ==> now - recent[i] >= HOUR
    ensures n < |recent| ==> now - recent[n] < HOUR
  {
    if recent != [] && now - recent[0] >= HOUR then 1 + Stale(recent[1..], now) else 0
  }

  /** What asking for the delay at `now` does to the pacer. */
  function Looked(p: PacerState, now: real): PacerState {
    p.(slowdown := if p.slowdown > 1.0 && now - p.lastFloodAt >= SLOWDOWN_RECOVERY then 1.0 else p.slowdown,
       recent := if p.rule.perHour > 0 then p.recent[Stale(p.recent, now)..] else p.recent,
       log := p.log.(seen := now))
  }

  /** How long to wait for a slot, asked of a pacer just `Looked` at. */
  function Wait(p: PacerState, now: real): real {
    var wait := MaxReal(0.0, p.nextAt - now);
    if p.rule.perHour > 0 && |p.recent| >= p.rule.perHour
    then MaxReal(wait, p.recent[0] + HOUR - now + 0.001)
    else wait
  }

  predicate Jitter(factor: real) {
    1.0 <= factor <= 1.5
  }

  /** The gap to the next slot. */
  function Spacing(every: real, factor: real, slowdown: real): real {
    every * factor * slowdown
  }

  lemma Lengthens(x: real, f: real)
    requires x >= 0.0 && f >= 1.0
    ensures x * f >= x
  {
  }

  lemma NotNegative(x: real, y: real)
    requires x >= 0.0 && y >= 0.0
    ensures x * y >= 0.0
  {
  }

  /** The slow-down only ever widens the floor. */
  lemma GapAtLeastEvery(every: real, slowdown: real)
    requires every >= 0.0 && slowdown >= 1.0
    ensures Gap(every, slowdown) >= every
  {
    Lengthens(every, slowdown);
  }

  lemma SpacingIs(every: real, factor: real, slowdown: real)
    ensures Spacing(every, factor, slowdown) == Gap(every, slowdown) * factor
  {
    assert every * factor * slowdown == every * slowdown * factor;
  }

  /** Jitter lengthens the gap, by half of it at most. */
  lemma SpacingIsBounded(every: real, factor: real, slowdown: real)
    requires every >= 0.0 && slowdown >= 0.0 && Jitter(factor)
    ensures Gap(every, slowdown) <= Spacing(every, factor, slowdown) <= Gap(every, slowdown) * 1.5
  {
    var gap := Gap(every, slowdown);
    assert gap >= 0.0 by { NotNegative(every, slowdown); }
    SpacingIs(every, factor, slowdown);
    assert gap * factor >= gap by { Lengthens(gap, factor); }
    assert gap * (1.5 - factor) >= 0.0 by { NotNegative(gap, 1.5 - factor); }
    assert gap * 1.5 == gap * factor + gap * (1.5 - factor);
  }

  function Consumed(p: PacerState, now: real, factor: real): PacerState {
    p.(nextAt := now + Spacing(p.rule.every, factor, p.slowdown),
       recent := if p.rule.perHour > 0 then p.recent + [now] else p.recent,
       log := p.log.(seen := now,
                     slots := p.log.slots + [Slot(now, p.rule.every, p.slowdown, p.log.floodUntil)],
                     capped := if p.rule.perHour > 0
                               then p.log.capped + [CappedSlot(now, p.rule.perHour)]
                               else p.log.capped))
  }

  function Penalized(p: PacerState, now: real, wait: real): PacerState {
    var until := now + MaxReal(0.0, wait);
    p.(slowdown := if p.slowdown * 2.0 > MAX_SLOWDOWN then MAX_SLOWDOWN else p.slowdown * 2.0,
       lastFloodAt := now,
       nextAt := MaxReal(p.nextAt, until),
       log := p.log.(seen := now, floodUntil := MaxReal(p.log.floodUntil, until)))
  }

  // ---- what every operation keeps ---------------------------------------------

  ghost predicate Spaced(slots: seq<Slot>) {
    && (forall i :: 0 <= i < |slots| ==> slots[i].every >= 0.0 && slots[i].slowdown >= 1.0)
    && forall i :: 0 < i < |slots| ==> slots[i].at >= slots[i - 1].Until()
  }

  ghost predicate PastFloods(slots: seq<Slot>) {
    forall i :: 0 <= i < |slots| ==> slots[i].at >= slots[i].floodUntil
  }

  /** A slot taken under cap `c` is an hour or more after the `c`-th capped slot before it. */
  ghost predicate Rolling(capped: seq<CappedSlot>) {
    forall i :: 0 <= i < |capped| && i >= capped[i].cap && capped[i].cap > 0 ==>
      capped[i].at - capped[i - capped[i].cap].at >= HOUR
  }

  ghost predicate Ordered(capped: seq<CappedSlot>) {
    forall i, j :: 0 <= i < j < |capped| ==> capped[i].at <= capped[j].at
  }

  /** The `_recent` deque is the tail of the capped slots, and what was dropped from it is an hour old. */
  ghost predicate RecentIsTail(p: PacerState) {
    var n := |p.log.capped| - |p.recent|;
    && 0 <= n
    && (forall i :: n <= i < |p.log.capped| ==> p.log.capped[i].at == p.recent[i - n])
    && (forall i :: 0 <= i < n ==> p.log.seen - p.log.capped[i].at >= HOUR)
  }

  ghost predicate NextIsAhead(p: PacerState) {
    var slots := p.log.slots;
    && (slots != [] ==> slots[|slots| - 1].at <= p.log.seen)
    && (slots != [] ==> p.nextAt >= slots[|slots| - 1].Until())
    && (p.log.floodUntil <= p.nextAt || (slots != [] && p.log.floodUntil <= slots[|slots| - 1].at))
  }

  ghost predicate Valid(p: PacerState) {
    && p.rule.every >= 0.0
    && p.slowdown in {1.0, 2.0, 4.0, 8.0}
    && Spaced(p.log.slots)
    && PastFloods(p.log.slots)
    && Rolling(p.log.capped)
    && Ordered(p.log.capped)
    && (forall i :: 0 <= i < |p.log.capped| ==> p.log.capped[i].at <= p.log.seen)
    && RecentIsTail(p)
    && NextIsAhead(p)
  }

  lemma FreshIsValid(rule: Rule)
    requires rule.every >= 0.0
    ensures Valid(Fresh(rule))
  {
  }

  lemma PruneKeepsTail(p: PacerState, now: real)
    requires RecentIsTail(p) && p.log.seen <= now
    ensures RecentIsTail(Looked(p, now))
  {
  }

  lemma LookedKeeps(p: PacerState, now: real)
    requires Valid(p) && p.log.seen <= now
    ensures Valid(Looked(p, now))
  {
    PruneKeepsTail(p, now);
  }

  /** Only an open slot is taken: `Wait` was 0 at some moment at or before `now`. */
  ghost predicate OpenBy(p: PacerState, now: real) {
    && p.log.seen <= now
    && p.nextAt <= now
    && (p.rule.perHour > 0 ==> |p.recent| < p.rule.perHour)
  }

  lemma ZeroWaitIsOpen(p: PacerState, now: real, later: real)
    requires Valid(p) && p.log.seen <= now <= later
    requires Wait(Looked(p, now), now) <= 0.0
    ensures OpenBy(Looked(p, now), later)
  {
    var q := Looked(p, now);
    if q.rule.perHour > 0 {
      assert q.recent != [] ==> now - q.recent[0] < HOUR;
    }
  }

  lemma ConsumedKeepsTail(p: PacerState, now: real, factor: real)
    requires RecentIsTail(p) && OpenBy(p, now)
    ensures RecentIsTail(Consumed(p, now, factor))
  {
    var q := Consumed(p, now, factor);
    var n := |p.log.capped| - |p.recent|;
    if p.rule.perHour > 0 {
      forall i | n <= i < |q.log.capped| ensures q.log.capped[i].at == q.recent[i - n] {
        if i < |p.log.capped| { assert q.log.capped[i] == p.log.capped[i] && q.recent[i - n] == p.recent[i - n]; }
      }
    }
  }

  /** The new slot is an hour behind the `cap`-th before it: that one has left the deque. */
  lemma SlotRolls(p: PacerState, now: real)
    requires RecentIsTail(p) && OpenBy(p, now) && p.rule.perHour > 0
    ensures |p.log.capped| >= p.rule.perHour ==> now - p.log.capped[|p.log.capped| - p.rule.perHour].at >= HOUR
  {
    assert |p.log.capped| - p.rule.perHour < |p.log.capped| - |p.recent|;
  }

  lemma ConsumedKeepsRolling(p: PacerState, now: real, factor: real)
    requires RecentIsTail(p) && OpenBy(p, now) && Rolling(p.log.capped)
    ensures Rolling(Consumed(p, now, factor).log.capped)
  {
    var capped := Consumed(p, now, factor).log.capped;
    var last := |p.log.capped|;
    if p.rule.perHour > 0 {
      SlotRolls(p, now);
      forall i | 0 <= i < |capped| && i >= capped[i].cap && capped[i].cap > 0
        ensures capped[i].at - capped[i - capped[i].cap].at >= HOUR
      {
        if i < last { assert capped[i] == p.log.capped[i]; }
      }
    }
  }

  lemma ConsumedKeepsSpaced(p: PacerState, now: real, factor: real)
    requires Spaced(p.log.slots) && NextIsAhead(p) && OpenBy(p, now) && p.rule.every >= 0.0 && p.slowdown >= 1.0
    ensures Spaced(Consumed(p, now, factor).log.slots)
  {
    var before, slots := p.log.slots, Consumed(p, now, factor).log.slots;
    forall i | 0 < i < |slots| ensures slots[i].at >= slots[i - 1].Until() {
      assert slots[i - 1] == before[i - 1];
      if i < |before| { assert slots[i] == before[i]; }
    }
  }

  lemma ConsumedStaysAhead(p: PacerState, now: real, factor: real)
    requires NextIsAhead(p) && OpenBy(p, now) && Jitter(factor) && p.rule.every >= 0.0 && p.slowdown >= 1.0
    ensures NextIsAhead(Consumed(p, now, factor))
  {
    var r := Consumed(p, now, factor);
    var gap := Gap(p.rule.every, p.slowdown);
    assert r.nextAt >= now + gap by { SpacingIsBounded(p.rule.every, factor, p.slowdown); }
    assert r.log.slots[|p.log.slots|].Until() == now + gap;
  }

  lemma ConsumedKeeps(p: PacerState, now: real, factor: real)
    requires Valid(p) && OpenBy(p, now) && Jitter(factor)
    ensures Valid(Consumed(p, now, factor))
  {
    ConsumedKeepsSpaced(p, now, factor);
    ConsumedStaysAhead(p, now, factor);
    ConsumedKeepsTail(p, now, factor);
    ConsumedKeepsRolling(p, now, factor);
    ConsumedKeepsRest(p, now, factor);
  }

  lemma ConsumedKeepsRest(p: PacerState, now: real, factor: real)
    requires Valid(p) && OpenBy(p, now)
    ensures var r := Consumed(p, now, factor);
      PastFloods(r.log.slots) && Ordered(r.log.capped)
      && forall i :: 0 <= i < |r.log.capped| ==> r.log.capped[i].at <= r.log.seen
  {
  }

  /** After a slot the next one opens no earlier than the widened floor later, and no later than half as much again. */
  lemma NextSlotOpens(p: PacerState, now: real, factor: real)
    requires Valid(p) && Jitter(factor)
    ensures var r := Consumed(p, now, factor);
      now + p.rule.every * p.slowdown <= r.nextAt <= now + p.rule.every * p.slowdown * 1.5
  {
    SpacingIsBounded(p.rule.every, factor, p.slowdown);
  }

  /** A pacer that is asked again after the wait it announced is open, unless its cap was lowered below what it has
      already given out in the last hour. */
  lemma WaitIsEnough(p: PacerState, now: real, later: real)
    requires Valid(p) && p.log.seen <= now <= later
    requires p.rule.perHour > 0 ==> |Looked(p, now).recent| <= p.rule.perHour
    requires later >= now + Wait(Looked(p, now), now)
    ensures Wait(Looked(Looked(p, now), later), later) <= 0.0
  {
    var q := Looked(p, now);
    if q.rule.perHour > 0 && |q.recent| >= q.rule.perHour {
      assert later - q.recent[0] >= HOUR;
      assert Stale(q.recent, later) >= 1;
    }
  }

  /** And no earlier, but for the thousandth of a second a full cap adds: asked again before, it is still closed. */
  lemma WaitIsNeeded(p: PacerState, now: real, later: real)
    requires Valid(p) && p.log.seen <= now <= later
    requires later + 0.001 < now + Wait(Looked(p, now), now)
    ensures Wait(Looked(Looked(p, now), later), later) > 0.0
  {
    var q := Looked(p, now);
    if q.rule.perHour > 0 && |q.recent| >= q.rule.perHour && later < q.recent[0] + HOUR {
      assert Stale(q.recent, later) == 0;
    }
  }

  lemma PenalizedKeeps(p: PacerState, now: real, wait: real)
    requires Valid(p) && p.log.seen <= now
    ensures Valid(Penalized(p, now, wait))
    ensures Penalized(p, now, wait).log.slots == p.log.slots
    ensures forall t :: OpenBy(Penalized(p, now, wait), t) <==> OpenBy(p, t) && t >= now + MaxReal(0.0, wait)
  {
  }

  lemma ConfiguredKeeps(p: PacerState, rule: Rule)
    requires Valid(p) && rule.every >= 0.0
    ensures Valid(p.(rule := rule))
  {
  }

  // ---- the promises, over any run ---------------------------------------------

  /** Two slots are at least `every` apart for each step between them, if those before the second were taken
      under that floor. */
  lemma {:induction false} FloorHolds(slots: seq<Slot>, every: real, i: nat, j: nat)
    requires Spaced(slots) && i < j < |slots|
    requires forall k :: i <= k < j ==> slots[k].every == every
    ensures slots[j].at - slots[i].at >= every * (j - i) as real
    decreases j
  {
    assert slots[j].at - slots[j - 1].at >= every by {
      GapAtLeastEvery(slots[j - 1].every, slots[j - 1].slowdown);
    }
    if i < j - 1 {
      FloorHolds(slots, every, i, j - 1);
      assert every * (j - i) as real == every * (j - 1 - i) as real + every;
    }
  }

  /** The number of capped slots in the window `[from, from + 3600)`. */
  function InWindow(capped: seq<CappedSlot>, from: real): nat {
    if capped == [] then 0
    else InWindow(capped[..|capped| - 1], from)
         + if from <= capped[|capped| - 1].at < from + HOUR then 1 else 0
  }

  lemma {:induction false} WindowIsShort(capped: seq<CappedSlot>, from: real, k: nat)
    requires k <= |capped| && Ordered(capped)
    requires forall i :: 0 <= i < k ==> capped[i].at < from
    ensures InWindow(capped, from) <= |capped| - k
  {
    if |capped| > k {
      WindowIsShort(capped[..|capped| - 1], from, k);
    } else if capped != [] {
      WindowIsShort(capped[..|capped| - 1], from, k - 1);
    }
  }

  /** Under a fixed cap no hour-long window, wherever it starts, holds more than `per_hour` slots. */
  lemma {:induction false} CapHolds(capped: seq<CappedSlot>, cap: nat, from: real)
    requires cap > 0 && Rolling(capped) && Ordered(capped)
    requires forall i :: 0 <= i < |capped| ==> capped[i].cap == cap
    ensures InWindow(capped, from) <= cap
  {
    if capped != [] {
      var last := |capped| - 1;
      if from <= capped[last].at < from + HOUR {
        if last >= cap {
          assert capped[last].at - capped[last - cap].at >= HOUR;
          WindowIsShort(capped, from, last - cap + 1);
        } else {
          WindowIsShort(capped, from, 0);
        }
      } else {
        CapHolds(capped[..last], cap, from);
      }
    }
  }

  // ---- the object ---------------------------------------------------------------

  class Pacer {
    var rule: Rule
    var nextAt: real
    var slowdown: real
    var lastFloodAt: real
    var recent: seq<real>
    ghost var log: PacerLog

    ghost function View(): PacerState
      reads this
    {
      PacerState(rule, nextAt, slowdown, lastFloodAt, recent, log)
    }

    constructor (rule: Rule)
      ensures View() == Fresh(rule)
    {
      this.rule := rule;
      nextAt := 0.0;
      slowdown := 1.0;
      lastFloodAt := 0.0;
      recent := [];
      log := PacerLog(0.0, [], [], 0.0);
    }

    method Configure(rule: Rule)
      modifies this
      ensures View() == old(View()).(rule := rule)
    {
      this.rule := rule;
    }

    /** The pruning loop of `delay`. */
    method DropStale(now: real)
      modifies this`recent
      ensures recent == old(recent)[Stale(old(recent), now)..]
    {
      ghost var gone := 0;
      while recent != [] && now - recent[0] >= HOUR
        invariant 0 <= gone <= Stale(old(recent), now)
        invariant recent == old(recent)[gone..]
      {
        recent := recent[1..];
        gone := gone + 1;
      }
    }

    /** Answers 0 exactly when a slot is open. */
    method Delay(now: real) returns (wait: real)
      requires Valid(View()) && View().log.seen <= now
      modifies this
      ensures View() == Looked(old(View()), now)
      ensures Valid(View())
      ensures wait == Wait(View(), now)
      ensures wait <= 0.0 <==> OpenBy(View(), now)
    {
      LookedKeeps(View(), now);
      if slowdown > 1.0 && now - lastFloodAt >= SLOWDOWN_RECOVERY {
        slowdown := 1.0;
      }
      wait := if nextAt - now > 0.0 then nextAt - now else 0.0;
      log := log.(seen := now);
      var cap := rule.perHour;
      if cap > 0 {
        DropStale(now);
        if |recent| >= cap {
          assert now - recent[0] < HOUR;
          if recent[0] + HOUR - now + 0.001 > wait {
            wait := recent[0] + HOUR - now + 0.001;
          }
        }
      }
    }

    method Consume(now: real, factor: real)
      requires Valid(View()) && OpenBy(View(), now) && Jitter(factor)
      modifies this
      ensures View() == Consumed(old(View()), now, factor)
      ensures Valid(View())
    {
      ConsumedKeeps(View(), now, factor);
      var spacing := Spacing(rule.every, factor, slowdown);
      log := log.(seen := now,
                  slots := log.slots + [Slot(now, rule.every, slowdown, log.floodUntil)],
                  capped := if rule.perHour > 0
                            then log.capped + [CappedSlot(now, rule.perHour)] else log.capped);
      nextAt := now + spacing;
      if rule.perHour > 0 {
        recent := recent + [now];
      }
    }

    method Penalize(now: real, wait: real)
      requires Valid(View()) && View().log.seen <= now
      modifies this
      ensures View() == Penalized(old(View()), now, wait)
      ensures Valid(View())
    {
      PenalizedKeeps(View(), now, wait);
      var until := now + if wait > 0.0 then wait else 0.0;
      log := log.(seen := now, floodUntil := MaxReal(log.floodUntil, until));
      slowdown := if slowdown * 2.0 > MAX_SLOWDOWN then MAX_SLOWDOWN else slowdown * 2.0;
      lastFloodAt := now;
      nextAt := if nextAt < until then until else nextAt;
    }
  }
}
