/** Nothing lost and nothing twice: how the ledgers of the queue move over runs. */
module Accounts {
  import opened Basics
  import opened Items
  import opened Queues
  import opened Store
  import opened Machine
  import opened Safety

  // ---- how a queue moves -------------------------------------------------------------

  /** The slot has kept one action name, and nothing of it was wiped. */
  ghost predicate Steady(q: Queue, slot: Slot, action: Kind) {
    && (forall id :: id in q.items && SlotOf(q.items[id]) == slot ==> q.items[id].action == action)
    && (slot in q.stats ==> q.stats[slot].action == action)
    && Get(q.ledger.wiped, slot, 0) == 0
  }

  /** The recent keys with more finished ones behind them, cut as the source cuts them. */
  function Behind(recent: seq<string>, keys: seq<string>): seq<string> {
    if keys == [] then recent else LastN(recent + keys, RECENT_KEYS)
  }

  /** Keyed finishes in this order, one more key each, and nothing else that touches the recent keys. */
  ghost predicate Pushed(q: Queue, keys: seq<string>, r: Queue) {
    && r.ledger.finishes == q.ledger.finishes + |keys|
    && r.recent == Behind(q.recent, keys)
    && (forall k :: k in keys ==> k in r.ledger.scheduled)
    && q.ledger.scheduled <= r.ledger.scheduled
  }

  ghost predicate Ages(q: Queue, r: Queue) {
    exists keys: seq<string> :: Pushed(q, keys, r)
  }

  lemma BehindTwice(recent: seq<string>, a: seq<string>, b: seq<string>)
    ensures Behind(Behind(recent, a), b) == Behind(recent, a + b)
  {
    assert recent + a + b == recent + (a + b);
    if a == [] { assert a + b == b; }
    else if b == [] { assert a + b == a; }
    else { LastTwice(recent + a, b, RECENT_KEYS); }
  }

  lemma AgesOn(q: Queue, m: Queue, r: Queue)
    requires Ages(q, m) && Ages(m, r)
    ensures Ages(q, r)
  {
    var a :| Pushed(q, a, m);
    var b :| Pushed(m, b, r);
    BehindTwice(q.recent, a, b);
    assert Pushed(q, a + b, r);
  }

  lemma NothingPushed(q: Queue, r: Queue)
    requires r.recent == q.recent && r.ledger.finishes == q.ledger.finishes
    requires q.ledger.scheduled <= r.ledger.scheduled
    ensures Ages(q, r)
  {
    assert Pushed(q, [], r);
  }

  /** Once cancelled, an item stays cancelled until it leaves. */
  ghost predicate StaysCancelled(q: Queue, r: Queue) {
    forall id :: id in q.cancelled && id in r.items ==> id in r.cancelled
  }

  ghost predicate Final(q: Queue, r: Queue) {
    forall id :: id in q.ledger.ended ==> id in r.ledger.ended && r.ledger.ended[id] == q.ledger.ended[id]
  }

  /** What a counter stands at. */
  function CounterOf(q: Queue, slot: Slot, outcome: Outcome): nat {
    if slot !in q.stats then 0
    else
      match outcome
      case Done => q.stats[slot].done
      case Skipped => q.stats[slot].skipped
      case Superseded => q.stats[slot].superseded
      case Expired => q.stats[slot].expired
      case Errors => q.stats[slot].errors
  }

  /** The items of a slot that have left with an outcome. */
  function EndedWith(q: Queue, slot: Slot, outcome: Outcome): set<string> {
    set id | id in q.ledger.ended && SlotOf(q.ledger.ended[id].item) == slot && q.ledger.ended[id].outcome == outcome
  }

  /** What a counter counts beyond the items that have left. */
  function Surplus(q: Queue, slot: Slot, outcome: Outcome): int {
    CounterOf(q, slot, outcome) - |EndedWith(q, slot, outcome)|
  }

  ghost predicate EvenAt(q: Queue, r: Queue, slot: Slot) {
    forall outcome :: Surplus(r, slot, outcome) == Surplus(q, slot, outcome)
  }

  /** What every event but handing in and forgetting does to the accounts. */
  ghost predicate Moves(q: Queue, r: Queue) {
    && Final(q, r)
    && Ages(q, r)
    && StaysCancelled(q, r)
    && r.items.Keys <= q.items.Keys
    && r.ledger.taken == q.ledger.taken && r.ledger.scheduled == q.ledger.scheduled
    && forall slot, action :: Steady(q, slot, action) ==> Steady(r, slot, action) && EvenAt(q, r, slot)
  }

  lemma MovesOn(q: Queue, m: Queue, r: Queue)
    requires Moves(q, m) && Moves(m, r)
    ensures Moves(q, r)
  {
    AgesOn(q, m, r);
    forall slot, action | Steady(q, slot, action) ensures Steady(r, slot, action) && EvenAt(q, r, slot) {
      assert Steady(m, slot, action) && EvenAt(q, m, slot) && EvenAt(m, r, slot);
    }
  }

  lemma SameEnds(q: Queue, r: Queue, slot: Slot)
    requires r.stats == q.stats && r.ledger.ended == q.ledger.ended
    ensures EvenAt(q, r, slot)
  {
    forall outcome ensures Surplus(r, slot, outcome) == Surplus(q, slot, outcome) {
      assert EndedWith(r, slot, outcome) == EndedWith(q, slot, outcome);
    }
  }

  /** Steps that touch neither counters nor keys. */
  lemma LightMoves(q: Queue, r: Queue)
    requires r.recent == q.recent && r.stats == q.stats && r.ledger.scheduled == q.ledger.scheduled
    requires q.cancelled <= r.cancelled
    requires r.ledger.ended == q.ledger.ended && r.ledger.wiped == q.ledger.wiped
    requires r.ledger.taken == q.ledger.taken && r.ledger.finishes == q.ledger.finishes
    requires forall id :: id in r.items ==> id in q.items && SameWork(r.items[id], q.items[id])
    ensures Moves(q, r)
  {
    NothingPushed(q, r);
    forall slot, action | Steady(q, slot, action) ensures Steady(r, slot, action) && EvenAt(q, r, slot) {
      SameEnds(q, r, slot);
    }
  }

  lemma CountedSteady(q: Queue, slot: Slot, action: Kind, outcome: Outcome, s: Slot, a: Kind)
    requires Steady(q, s, a) && (s == slot ==> a == action)
    ensures Steady(Counted(q, slot, action, outcome), s, a)
  {
  }

  lemma FinishedSteady(q: Queue, item: PendingItem, outcome: Outcome, s: Slot, a: Kind)
    requires Steady(q, s, a) && IsLive(q, item)
    ensures Steady(Finished(q, item, outcome), s, a)
  {
    assert Steady(Removed(q, item), s, a);
    CountedSteady(Removed(q, item), SlotOf(item), item.action, outcome, s, a);
  }

  /** A counter that was not started over goes up by one, and no other one moves. */
  lemma CountedOne(q: Queue, slot: Slot, action: Kind, outcome: Outcome, s: Slot, o: Outcome)
    requires slot in q.stats ==> q.stats[slot].action == action
    ensures CounterOf(Counted(q, slot, action, outcome), s, o)
            == CounterOf(q, s, o) + if s == slot && o == outcome then 1 else 0
  {
  }

  /** One more item has left, with this outcome and no other. */
  lemma EndedOne(q: Queue, item: PendingItem, outcome: Outcome, r: Queue, s: Slot, o: Outcome)
    requires item.id !in q.ledger.ended && r.ledger.ended == q.ledger.ended[item.id := End(item, outcome)]
    ensures |EndedWith(r, s, o)| == |EndedWith(q, s, o)| + if s == SlotOf(item) && o == outcome then 1 else 0
  {
    var a, b := EndedWith(q, s, o), EndedWith(r, s, o);
    if s == SlotOf(item) && o == outcome { OneMore(a, b, item.id); } else { assert b == a; }
  }

  lemma FinishedEven(q: Queue, item: PendingItem, outcome: Outcome, s: Slot, a: Kind)
    requires IdsOk(q) && IsLive(q, item) && Steady(q, s, a)
    ensures EvenAt(q, Finished(q, item, outcome), s)
  {
    var r := Finished(q, item, outcome);
    forall o ensures Surplus(r, s, o) == Surplus(q, s, o) {
      EndedOne(q, item, outcome, r, s, o);
      FinishedCounts(q, item, outcome, s, a, o);
    }
  }

  lemma FinishedCounts(q: Queue, item: PendingItem, outcome: Outcome, s: Slot, a: Kind, o: Outcome)
    requires IsLive(q, item) && Steady(q, s, a)
    ensures CounterOf(Finished(q, item, outcome), s, o)
            == CounterOf(q, s, o) + if s == SlotOf(item) && o == outcome then 1 else 0
  {
    var m := Removed(q, item);
    assert CounterOf(m, s, o) == CounterOf(q, s, o);
    assert CounterOf(Finished(q, item, outcome), s, o)
        == CounterOf(Counted(m, SlotOf(item), item.action, outcome), s, o);
    if s == SlotOf(item) {
      assert q.items[item.id].action == a;
      CountedOne(m, s, item.action, outcome, s, o);
    } else {
      OtherCounts(m, SlotOf(item), item.action, outcome, s, o);
    }
  }

  lemma OtherCounts(q: Queue, slot: Slot, action: Kind, outcome: Outcome, s: Slot, o: Outcome)
    requires s != slot
    ensures CounterOf(Counted(q, slot, action, outcome), s, o) == CounterOf(q, s, o)
  {
  }

  lemma FinishedAges(q: Queue, item: PendingItem, outcome: Outcome)
    requires QueueInv(q) && IsLive(q, item)
    ensures Ages(q, Finished(q, item, outcome))
  {
    var r := Finished(q, item, outcome);
    if item.key == "" { NothingPushed(q, r); } else { assert Pushed(q, [item.key], r); }
  }

  lemma FinishedMoves(q: Queue, item: PendingItem, outcome: Outcome)
    requires QueueInv(q) && IsLive(q, item)
    ensures Moves(q, Finished(q, item, outcome))
  {
    FinishedAges(q, item, outcome);
    FinishedEffect(q, item, outcome);
    forall s, a | Steady(q, s, a)
      ensures Steady(Finished(q, item, outcome), s, a) && EvenAt(q, Finished(q, item, outcome), s)
    {
      FinishedSteady(q, item, outcome, s, a);
      FinishedEven(q, item, outcome, s, a);
    }
  }

  lemma {:induction false} AllFinishedMoves(q: Queue, ids: seq<string>, outcome: Outcome)
    requires QueueInv(q) && Distinct(ids) && SetOf(ids) <= q.items.Keys - q.running
    ensures Moves(q, AllFinished(q, ids, outcome))
  {
    if ids != [] {
      var front := ids[..|ids| - 1];
      SetOfPrefix(ids);
      AllFinishedMoves(q, front, outcome);
      AllFinishedKeeps(q, front, outcome);
      var m := AllFinished(q, front, outcome);
      var id := ids[|ids| - 1];
      if id in m.items {
        FinishedMoves(m, m.items[id], outcome);
        MovesOn(q, m, Finished(m, m.items[id], outcome));
      }
    } else {
      LightMoves(q, q);
    }
  }

  lemma {:induction false} AllLaunchedMoves(q: Queue, ids: seq<string>)
    ensures Moves(q, AllLaunched(q, ids))
    ensures AllLaunched(q, ids).items == q.items
  {
    if ids != [] {
      var m := AllLaunched(q, ids[..|ids| - 1]);
      AllLaunchedMoves(q, ids[..|ids| - 1]);
      LightMoves(m, Launched(m, ids[|ids| - 1]));
      MovesOn(q, m, Launched(m, ids[|ids| - 1]));
    } else {
      LightMoves(q, q);
    }
  }

  lemma {:induction false} AllBrokenOffMoves(q: Queue, ids: seq<string>)
    ensures Moves(q, AllBrokenOff(q, ids))
  {
    if ids != [] {
      var m := AllBrokenOff(q, ids[..|ids| - 1]);
      AllBrokenOffMoves(q, ids[..|ids| - 1]);
      LightMoves(m, BrokenOff(m, ids[|ids| - 1]));
      MovesOn(q, m, BrokenOff(m, ids[|ids| - 1]));
    } else {
      LightMoves(q, q);
    }
  }

  lemma SettledOneMoves(q: Queue, id: string, verdict: Verdict, limit: nat, due: real)
    requires QueueInv(q) && id in q.items
    ensures Moves(q, SettledOne(q, id, verdict, limit, due))
  {
    var hit := Hit(q.items[id], verdict);
    match FateOf(hit, verdict, id in q.cancelled, limit, due)
    case Leaves(outcome) => FinishedMoves(q, hit, outcome);
    case Stays(at) => LightMoves(q, Requeued(q, hit.(dueAt := at)));
  }

  lemma {:induction false} SettledMoves(q: Queue, ids: seq<string>, verdict: Verdict, limit: nat, dues: seq<real>)
    requires QueueInv(q) && Distinct(ids) && SetOf(ids) <= q.running && |dues| == |ids|
    requires limit <= PATIENT_RETRIES
    requires verdict.Later? ==> forall id :: id in ids ==> id in q.items && Paid(q, q.items[id])
    ensures Moves(q, Settled(q, ids, verdict, limit, dues))
  {
    if ids != [] {
      var n := |ids| - 1;
      SetOfPrefix(ids);
      SettledMoves(q, ids[..n], verdict, limit, dues[..n]);
      SettledKeeps(q, ids[..n], verdict, limit, dues[..n]);
      var m := Settled(q, ids[..n], verdict, limit, dues[..n]);
      if ids[n] in m.items {
        SettledOneMoves(m, ids[n], verdict, limit, dues[n]);
        MovesOn(q, m, SettledOne(m, ids[n], verdict, limit, dues[n]));
      }
    } else {
      LightMoves(q, q);
    }
  }

  // ---- how an event moves the queue -------------------------------------------------------

  ghost predicate HandsIn(e: Event) {
    e.Submit? || e.CountOnly? || e.ForgetJob? || e.Preload? || e.Resume?
  }

  lemma CancelMoves(q: Queue, sel: Selector, drops: seq<string>)
    requires QueueInv(q) && Enumerates(drops, ToCancel(q, sel))
    ensures Moves(q, AllFinished(Doomed(q, ToDoom(q, sel)), drops, Superseded))
  {
    var m := Doomed(q, ToDoom(q, sel));
    DoomedKeeps(q, ToDoom(q, sel));
    LightMoves(q, m);
    EnumerationIsSet(drops, ToCancel(q, sel));
    AllFinishedMoves(m, drops, Superseded);
    MovesOn(q, m, AllFinished(m, drops, Superseded));
  }

  lemma OutsideMoves(s: State, e: Event)
    requires QueueInv(s.q) && EnabledOutside(s, e) && !OfWorker(e) && !HandsIn(e)
    ensures Moves(s.q, NextOutside(s, e).q)
  {
    match e
    case CancelItems(sel, drops) => CancelMoves(s.q, sel, drops);
    case ExternalRead(place, maxId, drops) =>
      DropsMove(s, ReadTakeover(s, place, maxId), drops);
    case Outgoing(chatId, msgId, drops) =>
      DropsMove(s, SendTakeover(s, chatId, msgId), drops);
    case _ => LightMoves(s.q, s.q);
  }

  lemma DropsMove(s: State, taken: set<string>, drops: seq<string>)
    requires QueueInv(s.q) && Enumerates(drops, taken) && taken <= s.q.items.Keys - s.q.running
    ensures Moves(s.q, AllFinished(s.q, drops, Superseded))
  {
    EnumerationIsSet(drops, taken);
    AllFinishedMoves(s.q, drops, Superseded);
  }

  lemma RunDryMoves(s: State, kind: Kind, head: string, batch: seq<string>, dues: seq<real>)
    requires Safety.Inv(s) && IsBatch(s.q, head, batch, s.now) && |dues| == |batch|
    ensures Moves(s.q, Settled(AllLaunched(s.q, batch), batch, Ok, RetryLimit(s, kind), dues))
  {
    var m := AllLaunched(s.q, batch);
    BatchIsPending(s.q, head, batch, s.now);
    AllLaunchedMoves(s.q, batch);
    AllLaunchedKeeps(s.q, batch);
    SettledMoves(m, batch, Ok, RetryLimit(s, kind), dues);
    MovesOn(s.q, m, Settled(m, batch, Ok, RetryLimit(s, kind), dues));
  }

  lemma HeldMoves(s: State, head: string, due: real)
    requires IdsOk(s.q) && head in s.q.items
    ensures Moves(s.q, PutOff(s, head, due).q)
  {
    LightMoves(s.q, Edited(s.q, s.q.items[head].(dueAt := due)));
  }

  lemma StepMoves(s: State, kind: Kind, head: string, choice: Choice)
    requires Safety.Inv(s) && EnabledWorker(s, Step(kind, head, choice))
    ensures Moves(s.q, Stepped(s, kind, head, choice).q)
  {
    match choice
    case Expire => FinishedMoves(s.q, s.q.items[head], Expired);
    case Hold(due) => HeldMoves(s, head, due);
    case TooSoon => LightMoves(s.q, s.q);
    case RunDry(batch, dues) => RunDryMoves(s, kind, head, batch, dues);
    case Run(batch, jitter) => AllLaunchedMoves(s.q, batch);
  }

  lemma SweepMoves(s: State, place: Place, target: int, sweep: seq<string>)
    requires QueueInv(s.q) && SweepOk(s, place, target, sweep)
    ensures Moves(s.q, AllFinished(s.q, sweep, Done))
  {
    EnumerationIsSet(sweep, SatisfiedReads(s.q, place, target));
    AllFinishedMoves(s.q, sweep, Done);
  }

  lemma TypingMoves(q: Queue, item: PendingItem)
    requires item.id in q.items && q.items[item.id] == item
    ensures Moves(q, Edited(q, item.(phase := Send)))
  {
    LightMoves(q, Edited(q, item.(phase := Send)));
  }

  lemma BeginMoves(s: State, kind: Kind, later: real, jitter: real, sweep: seq<string>)
    requires Safety.Inv(s) && EnabledWorker(s, Begin(kind, later, jitter, sweep))
    ensures Moves(s.q, Begun(s, kind, later, jitter, sweep).q)
  {
    LightMoves(s.q, s.q);
    match kind
    case React => ReactBeginMoves(s, later, jitter, sweep);
    case Reply => ReplyBeginMoves(s, later, jitter, sweep);
    case _ => assert Begun(s, kind, later, jitter, sweep).q == s.q;
  }

  lemma ReactBeginMoves(s: State, later: real, jitter: real, sweep: seq<string>)
    requires Safety.Inv(s) && EnabledBegin(s, React, later, jitter, sweep)
    ensures Moves(s.q, Begun(s, React, later, jitter, sweep).q)
  {
    var item := s.q.items[s.pcs[React].batch[0]];
    assert Moves(s.q, AllFinished(s.q, sweep, Done)) by { SweepMoves(s, PlaceOf(item), item.msgId, sweep); }
    LightMoves(s.q, s.q);
  }

  lemma ReplyBeginMoves(s: State, later: real, jitter: real, sweep: seq<string>)
    requires Safety.Inv(s) && EnabledBegin(s, Reply, later, jitter, sweep)
    ensures Moves(s.q, Begun(s, Reply, later, jitter, sweep).q)
  {
    var item := s.q.items[s.pcs[Reply].batch[0]];
    assert Moves(s.q, Edited(s.q, item.(phase := Send))) by { TypingMoves(s.q, item); }
    LightMoves(s.q, s.q);
  }

  lemma SettleMoves(s: State, kind: Kind, verdict: Verdict, dues: seq<real>)
    requires Safety.Inv(s) && MaySettle(s, kind, verdict) && |dues| == |s.pcs[kind].Batch()|
    ensures Moves(s.q, SettledQueue(s, kind, verdict, dues).q)
  {
    var batch := s.pcs[kind].batch;
    assert PcOk(s.q, s.readMarks, s.ownRead, kind, s.pcs[kind]);
    if verdict.Later? { assert batch == [batch[0]]; }
    SettledMoves(s.q, batch, verdict, RetryLimit(s, kind), dues);
  }

  lemma ReadDoneMoves(s: State, kind: Kind, sweep: seq<string>)
    requires QueueInv(s.q) && EnabledWorker(s, ReadDone(kind, sweep))
    ensures Moves(s.q, NextWorker(s, ReadDone(kind, sweep)).q)
  {
    Safety.AnsweredQueue(s, kind, sweep);
    if kind == React {
      SweepMoves(s, PlaceOf(s.q.items[s.pcs[React].batch[0]]), s.pcs[React].target, sweep);
    } else {
      LightMoves(s.q, s.q);
    }
  }

  lemma SameQueueMoves(s: State, e: Event)
    requires (e.Wake? || e.ActDone? || e.Break?) && EnabledWorker(s, e)
    ensures NextWorker(s, e).q == s.q && Moves(s.q, s.q)
  {
    LightMoves(s.q, s.q);
  }

  lemma WorkerMoves(s: State, e: Event)
    requires Safety.Inv(s) && EnabledWorker(s, e) && (e.Step? || e.Begin? || e.Settle? || e.Stop?)
    ensures Moves(s.q, NextWorker(s, e).q)
  {
    match e
    case Step(kind, head, choice) => StepMoves(s, kind, head, choice);
    case Begin(kind, later, jitter, sweep) => BeginMoves(s, kind, later, jitter, sweep);
    case Settle(kind, verdict, dues) => SettleMoves(s, kind, verdict, dues);
    case Stop(kind) => AllBrokenOffMoves(s.q, s.pcs[kind].batch);
  }

  lemma NextMoves(s: State, e: Event)
    requires Safety.Inv(s) && Enabled(s, e) && !HandsIn(e)
    ensures Moves(s.q, Next(s, e).q)
  {
    if e.Step? || e.Begin? || e.Settle? || e.Stop? { WorkerMoves(s, e); }
    else if e.ReadDone? { ReadDoneMoves(s, e.kind, e.sweep); }
    else if OfWorker(e) { SameQueueMoves(s, e); }
    else { OutsideMoves(s, e); }
  }

  // ---- handing in and forgetting ---------------------------------------------------------------

  lemma TalliedSteady(q: Queue, slot: Slot, action: Kind, outcome: Outcome, s: Slot, a: Kind)
    requires Steady(q, s, a) && (s == slot ==> a == action)
    ensures Steady(Tallied(q, slot, action, outcome), s, a)
  {
    CountedSteady(q, slot, action, outcome, s, a);
  }

  lemma TalliedFacts(q: Queue, slot: Slot, action: Kind, outcome: Outcome, s: Slot, a: Kind)
    ensures var r := Tallied(q, slot, action, outcome);
      && Final(q, r) && Ages(q, r) && StaysCancelled(q, r)
      && Get(r.ledger.taken, s, 0) == Get(q.ledger.taken, s, 0) + (if s == slot then 1 else 0)
      && (Steady(q, s, a) && (s == slot ==> a == action) ==> Steady(r, s, a))
  {
    NothingPushed(q, Tallied(q, slot, action, outcome));
    if Steady(q, s, a) && (s == slot ==> a == action) { TalliedSteady(q, slot, action, outcome, s, a); }
  }

  lemma InsertedFacts(q: Queue, item: PendingItem, s: Slot, a: Kind)
    ensures var r := Inserted(q, item);
      && Final(q, r) && Ages(q, r) && StaysCancelled(q, r)
      && Get(r.ledger.taken, s, 0) == Get(q.ledger.taken, s, 0) + (if s == SlotOf(item) then 1 else 0)
      && (Steady(q, s, a) && (s == SlotOf(item) ==> a == item.action) ==> Steady(r, s, a))
  {
    NothingPushed(q, Inserted(q, item));
  }

  /** What one submission hands in for a slot: everything but a duplicate. */
  function Handed(s: State, item: PendingItem, album: Option<Album>, slot: Slot): nat {
    if SubmitAnswer(s, item, album) != Duplicate && SlotOf(item) == slot then 1 else 0
  }

  /** The accounts of a queue after `n` things were handed in for a slot. */
  ghost predicate Accounted(q: Queue, r: Queue, slot: Slot, n: nat) {
    Final(q, r) && Get(r.ledger.taken, slot, 0) == Get(q.ledger.taken, slot, 0) + n
  }

  lemma CaptionFacts(q: Queue, id: string, msgId: int, item: PendingItem, slot: Slot, action: Kind)
    requires id in q.items && q.items[id].id == id
    ensures var r := Tallied(CaptionMoved(q, id, msgId), SlotOf(item), item.action, Skipped);
      && Accounted(q, r, slot, if SlotOf(item) == slot then 1 else 0)
      && Ages(q, r) && StaysCancelled(q, r)
      && (Steady(q, slot, action) && (slot == SlotOf(item) ==> action == item.action) ==> Steady(r, slot, action))
  {
    var m := CaptionMoved(q, id, msgId);
    LightMoves(q, m);
    TalliedFacts(m, SlotOf(item), item.action, Skipped, slot, action);
    AgesOn(q, m, Tallied(m, SlotOf(item), item.action, Skipped));
  }

  /** What a submission of the item does to the accounts of the slot. */
  ghost predicate Submits(q: Queue, r: Queue, item: PendingItem, slot: Slot, action: Kind, n: nat) {
    && Accounted(q, r, slot, n) && Ages(q, r) && StaysCancelled(q, r)
    && (Steady(q, slot, action) && (slot == SlotOf(item) ==> action == item.action) ==> Steady(r, slot, action))
  }

  lemma MemberFacts(s: State, item: PendingItem, album: Album, hasCaption: bool, slot: Slot, action: Kind)
    requires IdsOk(s.q) && album in s.albums
    ensures var memo := s.albums[album];
      var m := if MovesToCaption(s, memo, hasCaption) then CaptionMoved(s.q, memo.itemId.value, item.msgId) else s.q;
      Submits(s.q, Tallied(m, SlotOf(item), item.action, Skipped), item, slot, action,
              if SlotOf(item) == slot then 1 else 0)
  {
    var memo := s.albums[album];
    if MovesToCaption(s, memo, hasCaption) {
      CaptionFacts(s.q, memo.itemId.value, item.msgId, item, slot, action);
    } else {
      TalliedFacts(s.q, SlotOf(item), item.action, Skipped, slot, action);
    }
  }

  lemma SubmitFacts(s: State, item: PendingItem, album: Option<Album>, hasCaption: bool, slot: Slot, action: Kind)
    requires IdsOk(s.q)
    ensures Submits(s.q, SubmittedQueue(s, item, album, hasCaption), item, slot, action, Handed(s, item, album, slot))
  {
    match SubmitAnswer(s, item, album)
    case Duplicate => NothingPushed(s.q, s.q);
    case AlbumMember => MemberFacts(s, item, album.value, hasCaption, slot, action);
    case Full => TalliedFacts(s.q, SlotOf(item), item.action, Errors, slot, action);
    case Scheduled => InsertedFacts(s.q, item, slot, action);
  }

  lemma ForgottenFacts(q: Queue, job: string, slot: Slot, action: Kind)
    ensures var r := Forgotten(q, job);
      && Final(q, r) && Ages(q, r) && StaysCancelled(q, r) && r.ledger.taken == q.ledger.taken
      && (Steady(q, slot, action) && slot.0 != job ==> Steady(r, slot, action))
  {
    NothingPushed(q, Forgotten(q, job));
  }

  /** The held records of a slot that `resume` really puts back. */
  function Restorations(q: Queue, held: seq<Record>, active: set<string>, slot: Slot): nat {
    if held == [] then 0
    else
      var m := Resumed(q, held[..|held| - 1], active);
      var last := held[|held| - 1];
      Restorations(q, held[..|held| - 1], active, slot)
      + if ResumedOne(m, last, active) != m && SlotOf(last.item) == slot then 1 else 0
  }

  ghost predicate HeldSteady(held: seq<Record>, slot: Slot, action: Kind) {
    forall i :: 0 <= i < |held| && held[i].Runnable? && SlotOf(held[i].item) == slot ==> held[i].item.action == action
  }

  lemma {:induction false} ResumedFacts(q: Queue, held: seq<Record>, active: set<string>, slot: Slot, action: Kind)
    requires q.cancelled <= q.items.Keys
    ensures var r := Resumed(q, held, active);
      && Final(q, r) && StaysCancelled(q, r)
      && (forall id :: id in q.items ==> id in r.items)
      && Get(r.ledger.taken, slot, 0) == Get(q.ledger.taken, slot, 0) + Restorations(q, held, active, slot)
      && (Steady(q, slot, action) && HeldSteady(held, slot, action) ==> Steady(r, slot, action))
  {
    if held != [] {
      ResumedFacts(q, held[..|held| - 1], active, slot, action);
      var m := Resumed(q, held[..|held| - 1], active);
      var last := held[|held| - 1];
      if ResumedOne(m, last, active) != m { RestoredFacts(m, last.item, slot, action); }
    }
  }

  lemma RestoredFacts(q: Queue, item: PendingItem, slot: Slot, action: Kind)
    ensures var r := Restored(q, item);
      && Final(q, r) && StaysCancelled(q, r)
      && (forall id :: id in q.items ==> id in r.items)
      && Get(r.ledger.taken, slot, 0) == Get(q.ledger.taken, slot, 0) + (if SlotOf(item) == slot then 1 else 0)
      && (Steady(q, slot, action) && (slot == SlotOf(item) ==> action == item.action) ==> Steady(r, slot, action))
  {
    var p := if item.key == "" then q else q.(recent := Pop(q.recent, item.key));
    InsertedFacts(p, item, slot, action);
    assert Steady(q, slot, action) ==> Steady(p, slot, action);
  }

  // ---- runs -------------------------------------------------------------------------------------

  /** What an event hands in for a slot. */
  ghost function HandedIn(s: State, e: Event, slot: Slot): nat {
    match e
    case Submit(item, album, _) => Handed(s, item, album, slot)
    case CountOnly(at, _, _) => if at == slot then 1 else 0
    case Resume(active) => Restorations(s.q, s.held, active, slot)
    case _ => 0
  }

  ghost function HandedInBy(states: seq<State>, events: seq<Event>, n: nat, slot: Slot): nat
    requires n <= |events| && n <= |states|
  {
    if n == 0 then 0
    else HandedInBy(states, events, n - 1, slot) + HandedIn(states[n - 1], events[n - 1], slot)
  }

  /** The event names the slot's one action if it names the slot at all, and does not forget its job. */
  ghost predicate KeepsSlot(e: Event, slot: Slot, action: Kind) {
    match e
    case Submit(item, _, _) => SlotOf(item) == slot ==> item.action == action
    case CountOnly(at, a, _) => at == slot ==> a == action
    case Preload(file) => HeldSteady(file.items, slot, action)
    case ForgetJob(job) => slot.0 != job
    case _ => true
  }

  lemma SubmitAccounts(s: State, item: PendingItem, album: Option<Album>, hasCaption: bool, slot: Slot)
    requires IdsOk(s.q)
    ensures Accounted(s.q, SubmittedQueue(s, item, album, hasCaption), slot, Handed(s, item, album, slot))
  {
    SubmitFacts(s, item, album, hasCaption, slot, React);
  }

  lemma ResumeAccounts(q: Queue, held: seq<Record>, active: set<string>, slot: Slot)
    requires q.cancelled <= q.items.Keys
    ensures Accounted(q, Resumed(q, held, active), slot, Restorations(q, held, active, slot))
  {
    ResumedFacts(q, held, active, slot, React);
  }

  lemma ForgetAccounts(q: Queue, job: string, slot: Slot)
    ensures Accounted(q, Forgotten(q, job), slot, 0)
  {
  }

  lemma TallyAccounts(q: Queue, at: Slot, action: Kind, outcome: Outcome, slot: Slot)
    ensures Accounted(q, Tallied(q, at, action, outcome), slot, if at == slot then 1 else 0)
  {
  }

  lemma HandingInAccounts(s: State, e: Event, slot: Slot)
    requires IdsOk(s.q) && HandsIn(e)
    ensures Accounted(s.q, NextOutside(s, e).q, slot, HandedIn(s, e, slot))
  {
    match e
    case Submit(item, album, hasCaption) => SubmitAccounts(s, item, album, hasCaption, slot);
    case CountOnly(at, a, outcome) => TallyAccounts(s.q, at, a, outcome, slot);
    case ForgetJob(job) => ForgetAccounts(s.q, job, slot);
    case Resume(active) => ResumeAccounts(s.q, s.held, active, slot);
    case Preload(file) =>
  }

  lemma HandingInSteady(s: State, e: Event, slot: Slot, action: Kind)
    requires IdsOk(s.q) && HandsIn(e)
    requires Steady(s.q, slot, action) && HeldSteady(s.held, slot, action) && KeepsSlot(e, slot, action)
    ensures Steady(NextOutside(s, e).q, slot, action)
  {
    match e
    case Submit(item, album, hasCaption) => SubmitFacts(s, item, album, hasCaption, slot, action);
    case CountOnly(at, a, outcome) => TalliedFacts(s.q, at, a, outcome, slot, action);
    case ForgetJob(job) => ForgottenFacts(s.q, job, slot, action);
    case Resume(active) => ResumedFacts(s.q, s.held, active, slot, action);
    case Preload(file) =>
  }

  lemma MovesAccount(q: Queue, r: Queue, slot: Slot)
    requires Moves(q, r)
    ensures Accounted(q, r, slot, 0)
  {
  }

  lemma NextAccounts(s: State, e: Event, slot: Slot)
    requires Safety.Inv(s) && Enabled(s, e)
    ensures Accounted(s.q, Next(s, e).q, slot, HandedIn(s, e, slot))
  {
    if HandsIn(e) {
      HandingInAccounts(s, e, slot);
    } else {
      NextMoves(s, e);
      MovesAccount(s.q, Next(s, e).q, slot);
    }
  }

  lemma EventAccounts(s: State, e: Event, t: State, slot: Slot)
    requires Safety.Inv(s) && Takes(s, e, t)
    ensures Accounted(s.q, t.q, slot, HandedIn(s, e, slot))
  {
    NextAccounts(s, e, slot);
  }

  lemma MovesSteady(q: Queue, r: Queue, slot: Slot, action: Kind)
    requires Moves(q, r) && Steady(q, slot, action)
    ensures Steady(r, slot, action)
  {
  }

  lemma NextSteady(s: State, e: Event, slot: Slot, action: Kind)
    requires Safety.Inv(s) && Enabled(s, e)
    requires Steady(s.q, slot, action) && HeldSteady(s.held, slot, action) && KeepsSlot(e, slot, action)
    ensures Steady(Next(s, e).q, slot, action)
  {
    if HandsIn(e) {
      HandingInSteady(s, e, slot, action);
    } else {
      NextMoves(s, e);
      MovesSteady(s.q, Next(s, e).q, slot, action);
    }
  }

  /** Held records come from one file, once, so they keep the slot too. */
  lemma EventSteady(s: State, e: Event, t: State, slot: Slot, action: Kind)
    requires Safety.Inv(s) && Takes(s, e, t)
    requires Steady(s.q, slot, action) && HeldSteady(s.held, slot, action) && KeepsSlot(e, slot, action)
    ensures Steady(t.q, slot, action) && HeldSteady(t.held, slot, action)
  {
    NextSteady(s, e, slot, action);
  }

  lemma RunEventAccounts(states: seq<State>, events: seq<Event>, n: nat, slot: Slot)
    requires IsRun(states, events) && 0 < n < |states|
    ensures Accounted(states[n - 1].q, states[n].q, slot, HandedIn(states[n - 1], events[n - 1], slot))
  {
    var s, e, t := states[n - 1], events[n - 1], states[n];
    assert Safety.Inv(s) by { RunKeeps(states, events, n - 1); }
    assert Takes(s, e, t) by { RunStep(states, events, n); }
    EventAccounts(s, e, t, slot);
  }

  lemma {:induction false} RunTaken(states: seq<State>, events: seq<Event>, n: nat, slot: Slot)
    requires IsRun(states, events) && n < |states|
    ensures Get(states[n].q.ledger.taken, slot, 0) == HandedInBy(states, events, n, slot)
  {
    if n > 0 {
      RunTaken(states, events, n - 1, slot);
      RunEventAccounts(states, events, n, slot);
    }
  }

  lemma RunEventSteady(states: seq<State>, events: seq<Event>, n: nat, slot: Slot, action: Kind)
    requires IsRun(states, events) && 0 < n < |states|
    requires Steady(states[n - 1].q, slot, action) && HeldSteady(states[n - 1].held, slot, action)
    requires KeepsSlot(events[n - 1], slot, action)
    ensures Steady(states[n].q, slot, action) && HeldSteady(states[n].held, slot, action)
  {
    var s, e, t := states[n - 1], events[n - 1], states[n];
    assert Safety.Inv(s) by { RunKeeps(states, events, n - 1); }
    assert Takes(s, e, t) by { RunStep(states, events, n); }
    EventSteady(s, e, t, slot, action);
  }

  lemma {:induction false} RunSteady(states: seq<State>, events: seq<Event>, n: nat, slot: Slot, action: Kind)
    requires IsRun(states, events) && n < |states|
    requires forall i :: 0 <= i < n ==> KeepsSlot(events[i], slot, action)
    ensures Steady(states[n].q, slot, action) && HeldSteady(states[n].held, slot, action)
  {
    if n > 0 {
      RunSteady(states, events, n - 1, slot, action);
      RunEventSteady(states, events, n, slot, action);
    }
  }

  /** Conservation: over any run in which a job slot keeps its action name and its job is not forgotten,
      everything handed in for it (submissions that were no duplicates, direct counts, restored items)
      is a live item or was counted, once, as done, skipped, superseded, expired or an error. */
  lemma NothingIsLost(states: seq<State>, events: seq<Event>, n: nat, slot: Slot, action: Kind)
    requires IsRun(states, events) && n < |states|
    requires forall i :: 0 <= i < n ==> KeepsSlot(events[i], slot, action)
    ensures HandedInBy(states, events, n, slot) == |Live(states[n].q, slot)| + CountOf(states[n].q, slot)
  {
    RunKeeps(states, events, n);
    RunTaken(states, events, n, slot);
    RunSteady(states, events, n, slot, action);
    assert BalancedAt(states[n].q, slot, 0);
  }

  /** How an item ended never changes. */
  lemma {:induction false} EndsAreFinal(states: seq<State>, events: seq<Event>, i: nat, j: nat, id: string)
    requires IsRun(states, events) && i <= j < |states| && id in states[i].q.ledger.ended
    ensures id in states[j].q.ledger.ended && states[j].q.ledger.ended[id] == states[i].q.ledger.ended[id]
  {
    if i < j {
      EndsAreFinal(states, events, i, j - 1, id);
      RunEventAccounts(states, events, j, ("", 0));
    }
  }

  /** Every id leaves once: it is live, ended or forgotten and never two of them, and an ended id stays ended. */
  lemma LeavesExactlyOnce(states: seq<State>, events: seq<Event>, i: nat, j: nat, id: string)
    requires IsRun(states, events) && i <= j < |states|
    ensures var l := states[j].q.ledger;
      && (id in l.used <==> id in states[j].q.items || id in l.ended || id in l.forgotten)
      && !(id in states[j].q.items && id in l.ended)
      && !(id in states[j].q.items && id in l.forgotten)
      && !(id in l.ended && id in l.forgotten)
    ensures id in states[i].q.ledger.ended ==> id !in states[j].q.items
  {
    RunKeeps(states, events, j);
    if id in states[i].q.ledger.ended { EndsAreFinal(states, events, i, j, id); }
  }

  // ---- cancelled while running ------------------------------------------------------------------

  lemma ResumeStaysCancelled(q: Queue, held: seq<Record>, active: set<string>)
    requires q.cancelled <= q.items.Keys
    ensures StaysCancelled(q, Resumed(q, held, active))
  {
    ResumedFacts(q, held, active, ("", 0), React);
  }

  lemma SubmitStaysCancelled(s: State, item: PendingItem, album: Option<Album>, hasCaption: bool)
    requires IdsOk(s.q)
    ensures StaysCancelled(s.q, SubmittedQueue(s, item, album, hasCaption))
  {
    SubmitFacts(s, item, album, hasCaption, ("", 0), React);
  }

  lemma HandingInStaysCancelled(s: State, e: Event)
    requires IdsOk(s.q) && HandsIn(e)
    ensures StaysCancelled(s.q, NextOutside(s, e).q)
  {
    if e.Submit? { SubmitStaysCancelled(s, e.item, e.album, e.hasCaption); }
    else if e.Resume? { ResumeStaysCancelled(s.q, s.held, e.active); }
    else { OthersStayCancelled(s, e); }
  }

  lemma OthersStayCancelled(s: State, e: Event)
    requires e.CountOnly? || e.ForgetJob? || e.Preload?
    ensures StaysCancelled(s.q, NextOutside(s, e).q)
  {
  }

  lemma EventStaysCancelled(s: State, e: Event, t: State)
    requires Safety.Inv(s) && Takes(s, e, t)
    ensures StaysCancelled(s.q, t.q)
  {
    if HandsIn(e) { HandingInStaysCancelled(s, e); } else { NextMoves(s, e); }
  }

  lemma RunStaysCancelled(states: seq<State>, events: seq<Event>, n: nat)
    requires IsRun(states, events) && 0 < n < |states|
    ensures StaysCancelled(states[n - 1].q, states[n].q)
  {
    var s, e, t := states[n - 1], events[n - 1], states[n];
    assert Safety.Inv(s) by { RunKeeps(states, events, n - 1); }
    assert Takes(s, e, t) by { RunStep(states, events, n); }
    EventStaysCancelled(s, e, t);
  }

  /** In one process an item cancelled or forgotten while it ran stays cancelled for as long as it is live, also
      when a stop has put it back. What a restart makes of it is `Restart.CancelledComesBackWhen`. */
  lemma {:induction false} CancelledStaysCancelled(states: seq<State>, events: seq<Event>, i: nat, j: nat, id: string)
    requires IsRun(states, events) && i <= j < |states|
    requires id in states[i].q.cancelled
    requires forall k :: i <= k <= j ==> id in states[k].q.items
    ensures id in states[j].q.cancelled
  {
    if i < j {
      CancelledStaysCancelled(states, events, i, j - 1, id);
      RunStaysCancelled(states, events, j);
      assert id in states[j].q.items;
    }
  }
}
