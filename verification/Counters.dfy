/** The counters of a job slot say, outcome by outcome, how its items have left. */
module Counters {
  import opened Basics
  import opened Items
  import opened Queues
  import opened Store
  import opened Machine
  import opened Safety
  import opened Accounts

  /** What an event counts directly, for something that never becomes an item: a further message of an album is
      skipped, and one that finds the queue full is an error. */
  function Direct(s: State, e: Event, slot: Slot, outcome: Outcome): nat {
    match e
    case Submit(item, album, _) => Refused(SubmitAnswer(s, item, album), item, slot, outcome)
    case CountOnly(at, _, o) => if at == slot && o == outcome then 1 else 0
    case _ => 0
  }

  function Refused(answer: Answer, item: PendingItem, slot: Slot, outcome: Outcome): nat {
    if SlotOf(item) == slot
       && ((answer == AlbumMember && outcome == Skipped) || (answer == Machine.Full && outcome == Errors))
    then 1 else 0
  }

  function DirectBy(states: seq<State>, events: seq<Event>, n: nat, slot: Slot, outcome: Outcome): nat
    requires n <= |events| && n <= |states|
  {
    if n == 0 then 0
    else DirectBy(states, events, n - 1, slot, outcome) + Direct(states[n - 1], events[n - 1], slot, outcome)
  }

  // ---- handing in -------------------------------------------------------------------------------------

  lemma TalliedSurplus(q: Queue, slot: Slot, action: Kind, outcome: Outcome, s: Slot, a: Kind, o: Outcome)
    requires Steady(q, s, a) && (s == slot ==> a == action)
    ensures Surplus(Tallied(q, slot, action, outcome), s, o)
            == Surplus(q, s, o) + if s == slot && o == outcome then 1 else 0
  {
    var r := Tallied(q, slot, action, outcome);
    assert EndedWith(r, s, o) == EndedWith(q, s, o);
    assert CounterOf(r, s, o) == CounterOf(Counted(q, slot, action, outcome), s, o);
    if s == slot { CountedOne(q, slot, action, outcome, s, o); } else { OtherCounts(q, slot, action, outcome, s, o); }
  }

  lemma InsertedSurplus(q: Queue, item: PendingItem, s: Slot, a: Kind, o: Outcome)
    requires Steady(q, s, a) && (s == SlotOf(item) ==> a == item.action)
    ensures Surplus(Inserted(q, item), s, o) == Surplus(q, s, o)
  {
    var r := Inserted(q, item);
    assert EndedWith(r, s, o) == EndedWith(q, s, o);
  }

  lemma CaptionSurplus(s: State, item: PendingItem, album: Album, hasCaption: bool, slot: Slot, action: Kind, o: Outcome)
    requires IdsOk(s.q) && album in s.albums && MovesToCaption(s, s.albums[album], hasCaption)
    requires Steady(s.q, slot, action) && (slot == SlotOf(item) ==> action == item.action)
    ensures Surplus(JoinedAlbum(s, item, album, hasCaption).q, slot, o)
            == Surplus(s.q, slot, o) + if SlotOf(item) == slot && o == Skipped then 1 else 0
  {
    var m := CaptionMoved(s.q, s.albums[album].itemId.value, item.msgId);
    SameEnds(s.q, m, slot);
    assert Steady(m, slot, action);
    TalliedSurplus(m, SlotOf(item), item.action, Skipped, slot, action, o);
  }

  lemma MemberSurplus(s: State, item: PendingItem, album: Album, hasCaption: bool, slot: Slot, action: Kind, o: Outcome)
    requires album in s.albums && !MovesToCaption(s, s.albums[album], hasCaption)
    requires Steady(s.q, slot, action) && (slot == SlotOf(item) ==> action == item.action)
    ensures Surplus(JoinedAlbum(s, item, album, hasCaption).q, slot, o)
            == Surplus(s.q, slot, o) + if SlotOf(item) == slot && o == Skipped then 1 else 0
  {
    TalliedSurplus(s.q, SlotOf(item), item.action, Skipped, slot, action, o);
  }

  lemma SubmitSurplus(s: State, item: PendingItem, album: Option<Album>, hasCaption: bool, slot: Slot, action: Kind,
                      o: Outcome)
    requires IdsOk(s.q) && Steady(s.q, slot, action) && (slot == SlotOf(item) ==> action == item.action)
    ensures Surplus(Submitted(s, item, album, hasCaption).q, slot, o)
            == Surplus(s.q, slot, o) + Direct(s, Submit(item, album, hasCaption), slot, o)
  {
    SubmittedByAnswer(s, item, album, hasCaption);
    AnsweredSurplus(s, SubmitAnswer(s, item, album), item, album, hasCaption, slot, action, o);
  }

  lemma AnsweredSurplus(s: State, answer: Answer, item: PendingItem, album: Option<Album>, hasCaption: bool,
                        slot: Slot, action: Kind, o: Outcome)
    requires IdsOk(s.q) && (answer == AlbumMember ==> album.Some? && album.value in s.albums)
    requires Steady(s.q, slot, action) && (slot == SlotOf(item) ==> action == item.action)
    ensures Surplus(Answered(s, answer, item, album, hasCaption).q, slot, o)
            == Surplus(s.q, slot, o) + Refused(answer, item, slot, o)
  {
    match answer
    case Duplicate =>
    case AlbumMember =>
      if MovesToCaption(s, s.albums[album.value], hasCaption) {
        CaptionSurplus(s, item, album.value, hasCaption, slot, action, o);
      } else {
        MemberSurplus(s, item, album.value, hasCaption, slot, action, o);
      }
    case Full => TalliedSurplus(s.q, SlotOf(item), item.action, Errors, slot, action, o);
    case Scheduled => InsertedSurplus(s.q, item, slot, action, o);
  }

  lemma RestoredSurplus(q: Queue, item: PendingItem, slot: Slot, action: Kind, o: Outcome)
    requires Steady(q, slot, action) && (slot == SlotOf(item) ==> action == item.action)
    ensures Surplus(Restored(q, item), slot, o) == Surplus(q, slot, o)
  {
    var p := if item.key == "" then q else q.(recent := Pop(q.recent, item.key));
    SameEnds(q, p, slot);
    assert Steady(p, slot, action);
    InsertedSurplus(p, item, slot, action, o);
  }

  lemma {:induction false} ResumedSurplus(q: Queue, held: seq<Record>, active: set<string>, slot: Slot, action: Kind,
                                          o: Outcome)
    requires q.cancelled <= q.items.Keys && Steady(q, slot, action) && HeldSteady(held, slot, action)
    ensures Surplus(Resumed(q, held, active), slot, o) == Surplus(q, slot, o)
  {
    if held != [] {
      var front, last := held[..|held| - 1], held[|held| - 1];
      ResumedSurplus(q, front, active, slot, action, o);
      var m := Resumed(q, front, active);
      assert Steady(m, slot, action) by { ResumedFacts(q, front, active, slot, action); }
      if ResumedOne(m, last, active) != m { RestoredSurplus(m, last.item, slot, action, o); }
    }
  }

  lemma ForgottenSurplus(q: Queue, job: string, slot: Slot, o: Outcome)
    requires slot.0 != job
    ensures Surplus(Forgotten(q, job), slot, o) == Surplus(q, slot, o)
  {
    assert EndedWith(Forgotten(q, job), slot, o) == EndedWith(q, slot, o);
  }

  lemma HandingInSurplus(s: State, e: Event, slot: Slot, action: Kind, o: Outcome)
    requires IdsOk(s.q) && HandsIn(e)
    requires Steady(s.q, slot, action) && HeldSteady(s.held, slot, action) && KeepsSlot(e, slot, action)
    ensures Surplus(NextOutside(s, e).q, slot, o) == Surplus(s.q, slot, o) + Direct(s, e, slot, o)
  {
    match e
    case Submit(item, album, hasCaption) => SubmitSurplus(s, item, album, hasCaption, slot, action, o);
    case CountOnly(at, a, outcome) => TalliedSurplus(s.q, at, a, outcome, slot, action, o);
    case ForgetJob(job) => ForgottenSurplus(s.q, job, slot, o);
    case Resume(active) => ResumedSurplus(s.q, s.held, active, slot, action, o);
    case Preload(file) => SameEnds(s.q, NextOutside(s, e).q, slot);
  }

  // ---- runs ------------------------------------------------------------------------------------------------

  lemma EventSurplus(s: State, e: Event, t: State, slot: Slot, action: Kind, o: Outcome)
    requires Safety.Inv(s) && Takes(s, e, t)
    requires Steady(s.q, slot, action) && HeldSteady(s.held, slot, action) && KeepsSlot(e, slot, action)
    ensures Surplus(t.q, slot, o) == Surplus(s.q, slot, o) + Direct(s, e, slot, o)
  {
    if HandsIn(e) {
      HandingInSurplus(s, e, slot, action, o);
    } else {
      NextMoves(s, e);
      MovesEven(s.q, t.q, slot, action, o);
    }
  }

  lemma MovesEven(q: Queue, r: Queue, slot: Slot, action: Kind, o: Outcome)
    requires Moves(q, r) && Steady(q, slot, action)
    ensures Surplus(r, slot, o) == Surplus(q, slot, o)
  {
    assert EvenAt(q, r, slot);
  }

  lemma RunEventSurplus(states: seq<State>, events: seq<Event>, n: nat, slot: Slot, action: Kind, o: Outcome)
    requires IsRun(states, events) && 0 < n < |states|
    requires forall i :: 0 <= i < n ==> KeepsSlot(events[i], slot, action)
    ensures Surplus(states[n].q, slot, o)
            == Surplus(states[n - 1].q, slot, o) + Direct(states[n - 1], events[n - 1], slot, o)
  {
    var s, e, t := states[n - 1], events[n - 1], states[n];
    assert Safety.Inv(s) by { RunKeeps(states, events, n - 1); }
    assert Takes(s, e, t) by { RunStep(states, events, n); }
    assert Steady(s.q, slot, action) && HeldSteady(s.held, slot, action) by {
      RunSteady(states, events, n - 1, slot, action);
    }
    EventSurplus(s, e, t, slot, action, o);
  }

  lemma {:induction false} RunSurplus(states: seq<State>, events: seq<Event>, n: nat, slot: Slot, action: Kind,
                                      o: Outcome)
    requires IsRun(states, events) && n < |states|
    requires forall i :: 0 <= i < n ==> KeepsSlot(events[i], slot, action)
    ensures Surplus(states[n].q, slot, o) == DirectBy(states, events, n, slot, o)
  {
    if n == 0 {
      assert EndedWith(EMPTY, slot, o) == {};
    } else {
      RunSurplus(states, events, n - 1, slot, action, o);
      RunEventSurplus(states, events, n, slot, action, o);
    }
  }

  /** The ids of a slot that have left with an outcome, and what was counted with it directly. */
  function Tally(states: seq<State>, events: seq<Event>, n: nat, slot: Slot, outcome: Outcome): nat
    requires n <= |events| && n < |states|
  {
    |EndedWith(states[n].q, slot, outcome)| + DirectBy(states, events, n, slot, outcome)
  }

  /** Over any run in which a job slot keeps its action name and its job is not forgotten, each of its five counters is
      the number of items that left with that outcome, and of those counted with it directly. A slot that has no
      counters yet has nothing to count. */
  lemma CountersAreExact(states: seq<State>, events: seq<Event>, n: nat, slot: Slot, action: Kind)
    requires IsRun(states, events) && n < |states|
    requires forall i :: 0 <= i < n ==> KeepsSlot(events[i], slot, action)
    ensures slot in states[n].q.stats ==>
      var stats := states[n].q.stats[slot];
      && stats.done == Tally(states, events, n, slot, Done)
      && stats.skipped == Tally(states, events, n, slot, Skipped)
      && stats.superseded == Tally(states, events, n, slot, Superseded)
      && stats.expired == Tally(states, events, n, slot, Expired)
      && stats.errors == Tally(states, events, n, slot, Errors)
    ensures slot !in states[n].q.stats ==> forall outcome :: Tally(states, events, n, slot, outcome) == 0
  {
    forall o ensures CounterOf(states[n].q, slot, o) == Tally(states, events, n, slot, o) {
      RunSurplus(states, events, n, slot, action, o);
    }
  }
}
