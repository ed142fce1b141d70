/** What the scheduler promises, over every run: theorems about reachable states
    and about the one event that could break a promise. */
module Promises {
  import opened Basics
  import opened Items
  import opened Queues
  import opened Machine
  import opened Safety
  import Deliveries
  import Guards

  // ---- react implies read ------------------------------------------------------------

  lemma MarksOutside(s: State, e: Event, place: Place)
    requires !OfWorker(e)
    requires Get(NextOutside(s, e).readMarks, place, 0) != Get(s.readMarks, place, 0)
    ensures e.ExternalRead? && e.place == place
    ensures Get(NextOutside(s, e).readMarks, place, 0) == e.maxId > Get(s.readMarks, place, 0)
  {
  }

  lemma MarksOfWorker(s: State, e: Event, place: Place)
    requires OfWorker(e) && EnabledWorker(s, e)
    requires Get(NextWorker(s, e).readMarks, place, 0) != Get(s.readMarks, place, 0)
    ensures e.ReadDone? && PlaceOf(s.q.items[s.pcs[e.kind].batch[0]]) == place
    ensures Get(NextWorker(s, e).readMarks, place, 0) == s.pcs[e.kind].target > Get(s.readMarks, place, 0)
  {
  }

  /** A mark changes only when another device has read, or a `message.read` completed, and then it rises to that. */
  lemma MarkRisesOnlyByReading(s: State, e: Event, place: Place)
    requires Enabled(s, e)
    requires Get(Next(s, e).readMarks, place, 0) != Get(s.readMarks, place, 0)
    ensures Get(Next(s, e).readMarks, place, 0) > Get(s.readMarks, place, 0)
    ensures || (e.ExternalRead? && e.place == place && Get(Next(s, e).readMarks, place, 0) == e.maxId)
            || (e.ReadDone? && PlaceOf(s.q.items[s.pcs[e.kind].batch[0]]) == place
                && Get(Next(s, e).readMarks, place, 0) == s.pcs[e.kind].target)
  {
    if OfWorker(e) { MarksOfWorker(s, e, place); } else { MarksOutside(s, e, place); }
  }

  /** Read marks never fall. */
  lemma MarksNeverFall(s: State, e: Event)
    requires Enabled(s, e)
    ensures MarksRise(s.readMarks, Next(s, e).readMarks)
  {
    forall p ensures Get(s.readMarks, p, 0) <= Get(Next(s, e).readMarks, p, 0) {
      if Get(Next(s, e).readMarks, p, 0) != Get(s.readMarks, p, 0) {
        MarkRisesOnlyByReading(s, e, p);
      }
    }
  }

  lemma {:induction false} MarksNeverFallInRuns(states: seq<State>, events: seq<Event>, i: nat, j: nat)
    requires IsRun(states, events) && i <= j < |states|
    ensures MarksRise(states[i].readMarks, states[j].readMarks)
  {
    if i < j {
      MarksNeverFallInRuns(states, events, i, j - 1);
      RunStep(states, events, j);
      MarksNeverFall(states[j - 1], events[j - 1]);
    }
  }

  /** And it does rise: a read on another device, or one that completed, is noted at once. */
  lemma ReadsAreNoted(states: seq<State>, events: seq<Event>, n: nat)
    requires IsRun(states, events) && n < |events|
    ensures events[n].ExternalRead? ==> Get(states[n + 1].readMarks, events[n].place, 0) >= events[n].maxId
    ensures events[n].ReadDone? ==>
      && events[n].kind in states[n].pcs && states[n].pcs[events[n].kind].Reading?
      && states[n].pcs[events[n].kind].batch != [] && states[n].pcs[events[n].kind].batch[0] in states[n].q.items
      && var item := states[n].q.items[states[n].pcs[events[n].kind].batch[0]];
         Get(states[n + 1].readMarks, (item.chatId, item.topicId), 0) >= states[n].pcs[events[n].kind].target
  {
    var s, e := states[n], events[n];
    assert Takes(s, e, states[n + 1]) by { RunStep(states, events, n + 1); }
    if OfWorker(e) { assert OneCall(s, NextWorker(s, e)); }
  }

  /** In every interleaving: a reaction goes out only when the chat is read up to its message,
      the mark it went out under still holds, and every read counted done has been read. */
  lemma ReactImpliesRead(states: seq<State>, events: seq<Event>, n: nat)
    requires IsRun(states, events) && n < |states|
    ensures forall i :: 0 <= i < |states[n].calls| && states[n].calls[i].op.ReactionOp? ==>
      states[n].calls[i].op.msgId <= states[n].calls[i].op.mark
    ensures forall id :: id in states[n].q.ledger.ended ==>
      var end := states[n].q.ledger.ended[id];
      end.outcome == Done && end.item.action == Read && !end.item.dryRun ==>
        end.item.msgId <= Get(states[n].readMarks, PlaceOf(end.item), 0)
  {
    RunKeeps(states, events, n);
    var s := states[n];
    forall i | 0 <= i < |s.calls| && s.calls[i].op.ReactionOp? ensures s.calls[i].op.msgId <= s.calls[i].op.mark {
      assert CallOk(s.calls[i], s.ownRead);
    }
    forall id | id in s.q.ledger.ended ensures EndOk(s.q.ledger.ended[id], s.readMarks) {
    }
  }

  /** The mark on record is the mark of the reaction's own place at the moment it goes out. */
  lemma ReactionRecordsItsMark(s: State, e: Event)
    requires Safety.Inv(s) && Enabled(s, e) && |Next(s, e).calls| > |s.calls|
    requires Next(s, e).calls[|s.calls|].op.ReactionOp?
    ensures var op := Next(s, e).calls[|s.calls|].op;
      op.msgId <= op.mark == Get(Next(s, e).readMarks, op.place, 0)
  {
    NextKeeps(s, e);
    assert CallOk(Next(s, e).calls[|s.calls|], Next(s, e).ownRead);
  }

  // ---- start guard ----------------------------------------------------------------------

  /** Every execution of a run was started by one of its steps, around the item that was of least due time among the
      pending items of its kind, with all of its batch due, unexpired and outside quiet hours; no dry-run item reached
      the op runner; a view names the id of every item it went out for; and an item counted done (reads that clear
      no badge apart, see `ReactImpliesRead`) went out in a request for just its chat and message. */
  lemma BatchesAreGuarded(states: seq<State>, events: seq<Event>, n: nat)
    requires IsRun(states, events) && n < |states|
    ensures forall i :: 0 <= i < |states[n].starts| ==> Guards.Guarded(states[n].starts[i])
    ensures forall i :: 0 <= i < |states[n].starts| ==>
      exists k :: 0 <= k < n && Deliveries.StartedBy(states[k], events[k], states[n].starts[i])
    ensures forall i, j :: 0 <= i < |states[n].calls| && 0 <= j < |states[n].calls[i].items| ==>
      !states[n].calls[i].items[j].dryRun
    ensures forall i, j :: 0 <= i < |states[n].calls| && states[n].calls[i].op.ViewOp?
                           && 0 <= j < |states[n].calls[i].items| ==>
      states[n].calls[i].items[j].msgId in states[n].calls[i].op.ids
    ensures forall id :: id in states[n].q.ledger.ended && Deliveries.DoneFor(states[n].q.ledger.ended[id]) ==>
      Deliveries.WentOut(states[n].calls, states[n].q.ledger.ended[id].item)
  {
    CallsAreGuarded(states, events, n);
    Deliveries.RunKeepsRequests(states, events, n);
    forall i | 0 <= i < |states[n].starts|
      ensures Guards.Guarded(states[n].starts[i])
      ensures exists k :: 0 <= k < n && Deliveries.StartedBy(states[k], events[k], states[n].starts[i])
    {
      Guards.StartsAreGuarded(states, events, n, i);
      var k := Deliveries.StartsAreNextDue(states, events, n, i);
    }
  }

  lemma CallsAreGuarded(states: seq<State>, events: seq<Event>, n: nat)
    requires IsRun(states, events) && n < |states|
    ensures StartsOk(states[n])
    ensures forall i, j :: 0 <= i < |states[n].calls| && 0 <= j < |states[n].calls[i].items| ==>
      && !states[n].calls[i].items[j].dryRun
      && (states[n].calls[i].op.ViewOp? ==> states[n].calls[i].items[j].msgId in states[n].calls[i].op.ids)
  {
    RunKeeps(states, events, n);
    var s := states[n];
    forall i, j | 0 <= i < |s.calls| && 0 <= j < |s.calls[i].items|
      ensures !s.calls[i].items[j].dryRun
      ensures s.calls[i].op.ViewOp? ==> s.calls[i].items[j].msgId in s.calls[i].op.ids
    {
      assert CallOk(s.calls[i], s.ownRead);
    }
  }

  /** Quiet hours put an item off to no earlier than the first instant outside its window. */
  lemma HeldPastTheWindow(s: State, kind: Kind, head: string, choice: Choice)
    requires IdsOk(s.q) && Enabled(s, Step(kind, head, choice)) && choice.Hold?
    requires s.q.items[head].quietHours.Some? ==> s.q.items[head].quietHours.value.Valid()
    ensures var window := s.q.items[head].quietHours.value;
      && window.Contains(s.now)
      && window.WindowEnd(s.now) <= choice.due
      && !window.Contains(window.WindowEnd(s.now))
      && (forall t: real :: s.now <= t < window.WindowEnd(s.now) ==> window.Contains(t))
      && Next(s, Step(kind, head, choice)).q.items == s.q.items[head := s.q.items[head].(dueAt := choice.due)]
  {
    var window := s.q.items[head].quietHours.value;
    window.WindowEndIsFirstOutside(s.now);
  }

  // ---- executions end ------------------------------------------------------------------------

  /** Apart from stops, an item is executed at most 24 times: ten floods, twelve retries, typing, and the last. */
  lemma ExecutionsAreBounded(states: seq<State>, events: seq<Event>, n: nat, id: string)
    requires IsRun(states, events) && n < |states|
    ensures Get(states[n].q.ledger.runs, id, 0) <= 24 + Get(states[n].q.ledger.stops, id, 0)
  {
    RunKeeps(states, events, n);
  }

  // ---- takeover -------------------------------------------------------------------------------

  /** The takeover rule in full: pending, in the chat and topic, at or below the id, and cancelled by its mode. */
  ghost predicate IsTakeover(q: Queue, chatId: int, topic: Option<int>, upTo: int, gone: set<string>) {
    forall id :: id in gone <==>
      && id in q.items && id !in q.running
      && q.items[id].chatId == chatId && q.items[id].msgId <= upTo
      && (topic == None || q.items[id].topicId == topic)
      && GivesWay(q.items[id])
  }

  /** A forward stays; a reaction or a reply goes when its mode is to cancel, a read or a view unless it is to ignore. */
  predicate GivesWay(item: PendingItem) {
    match item.action
    case Forward => false
    case React => item.onTakeover == Cancel
    case Reply => item.onTakeover == Cancel
    case Read => item.onTakeover != Ignore
    case View => item.onTakeover != Ignore
  }

  /** Just those items are gone, as superseded; every other one is as it was. */
  ghost predicate SupersedesJust(q: Queue, gone: set<string>, r: Queue) {
    && r.items == q.items - gone
    && r.running == q.running
    && forall id :: id in gone ==>
         id in q.items && id in r.ledger.ended && r.ledger.ended[id] == End(q.items[id], Superseded)
  }

  lemma TakenIs(q: Queue, chatId: int, topic: Option<int>, upTo: int, id: string)
    ensures id in Takeover(q, chatId, topic, upTo) <==>
      && id in q.items && id !in q.running
      && q.items[id].chatId == chatId && q.items[id].msgId <= upTo
      && (topic == None || q.items[id].topicId == topic)
      && GivesWay(q.items[id])
  {
  }

  lemma TakeoverDrops(q: Queue, chatId: int, topic: Option<int>, upTo: int, drops: seq<string>)
    requires QueueInv(q) && Enumerates(drops, Takeover(q, chatId, topic, upTo))
    ensures IsTakeover(q, chatId, topic, upTo, SetOf(drops))
    ensures SupersedesJust(q, SetOf(drops), AllFinished(q, drops, Superseded))
  {
    EnumerationIsSet(drops, Takeover(q, chatId, topic, upTo));
    assert SupersedesJust(q, SetOf(drops), AllFinished(q, drops, Superseded)) by {
      AllFinishedKeeps(q, drops, Superseded);
    }
    forall id { TakenIs(q, chatId, topic, upTo, id); }
  }

  /** A read on another device that is news, and not the echo of tlgr's own send, drops exactly the pending
      items of that chat (and topic, if one is given) at or below it whose mode cancels their kind,
      and leaves every other item as it was. */
  lemma TakeoverIsExact(s: State, place: Place, maxId: int, drops: seq<string>)
    requires QueueInv(s.q) && Enabled(s, ExternalRead(place, maxId, drops))
    requires maxId > Get(s.ownRead, place, 0)
    requires place.0 in s.ownSendAt ==> s.now >= s.ownSendAt[place.0] + 10.0
    ensures IsTakeover(s.q, place.0, place.1, maxId, SetOf(drops))
    ensures SupersedesJust(s.q, SetOf(drops), Next(s, ExternalRead(place, maxId, drops)).q)
  {
    assert NextOutside(s, ExternalRead(place, maxId, drops)).q == AllFinished(s.q, drops, Superseded)
        && Enumerates(drops, Takeover(s.q, place.0, place.1, maxId)) by {
      ReadDrops(s, place, maxId, drops);
    }
    TakeoverDrops(s.q, place.0, place.1, maxId, drops);
  }

  lemma ReadDrops(s: State, place: Place, maxId: int, drops: seq<string>)
    ensures NextOutside(s, ExternalRead(place, maxId, drops)).q == AllFinished(s.q, drops, Superseded)
    ensures maxId > Get(s.ownRead, place, 0) && !JustSent(s, place.0) ==>
      ReadTakeover(s, place, maxId) == Takeover(s.q, place.0, place.1, maxId)
  {
  }

  /** The same for a message sent from another device, over the whole chat. */
  lemma SendTakeoverIsExact(s: State, chatId: int, msgId: int, drops: seq<string>)
    requires QueueInv(s.q) && Enabled(s, Outgoing(chatId, msgId, drops))
    requires msgId !in Get(s.ownSent, chatId, [])
    requires chatId in s.ownSendAt ==> s.now >= s.ownSendAt[chatId] + 10.0
    ensures IsTakeover(s.q, chatId, None, msgId, SetOf(drops))
    ensures SupersedesJust(s.q, SetOf(drops), Next(s, Outgoing(chatId, msgId, drops)).q)
  {
    TakeoverDrops(s.q, chatId, None, msgId, drops);
  }

  lemma NothingListed(ids: seq<string>)
    ensures SetOf(ids) == {} ==> ids == []
  {
    if ids != [] { assert ids[0] in SetOf(ids); }
  }

  /** tlgr's own echoes drop nothing: in any run, a read at or below one tlgr issued for that place changes no item. */
  lemma OwnReadsDropNothing(states: seq<State>, events: seq<Event>, n: nat, c: nat, maxId: int, drops: seq<string>)
    requires IsRun(states, events) && n < |states| && c < |states[n].calls|
    requires states[n].calls[c].op.ReadOp? && maxId <= states[n].calls[c].op.upTo
    requires Enabled(states[n], ExternalRead(states[n].calls[c].op.place, maxId, drops))
    ensures Next(states[n], ExternalRead(states[n].calls[c].op.place, maxId, drops)).q == states[n].q
  {
    RunKeeps(states, events, n);
    var s := states[n];
    assert CallOk(s.calls[c], s.ownRead);
    EnumerationIsSet(drops, ReadTakeover(s, s.calls[c].op.place, maxId));
    NothingListed(drops);
  }

  /** A message that was noted as sent, or that comes within ten seconds of a send of tlgr to its chat, drops nothing. */
  lemma OwnSendsDropNothing(s: State, chatId: int, msgId: int, drops: seq<string>)
    requires Enabled(s, Outgoing(chatId, msgId, drops))
    requires || msgId in Get(s.ownSent, chatId, [])
             || (chatId in s.ownSendAt && s.now < s.ownSendAt[chatId] + 10.0)
    ensures Next(s, Outgoing(chatId, msgId, drops)).q == s.q
  {
    EnumerationIsSet(drops, SendTakeover(s, chatId, msgId));
    NothingListed(drops);
  }

  // ---- replay de-duplication --------------------------------------------------------------------

  /** A key that was scheduled before is accepted again only once it has finished and at least `RECENT_KEYS`
      later finishes have followed, or its job was forgotten before it finished. */
  lemma RescheduledOnlyAfterEviction(states: seq<State>, events: seq<Event>, n: nat,
                                     item: PendingItem, album: Option<Album>, hasCaption: bool)
    requires IsRun(states, events) && n < |states|
    requires Enabled(states[n], Submit(item, album, hasCaption))
    requires SubmitAnswer(states[n], item, album) == Scheduled
    requires item.key != "" && item.key in states[n].q.ledger.scheduled
    ensures var l := states[n].q.ledger;
      || item.key in l.forgottenKeys
      || (item.key in l.finishedAt && l.finishes - l.finishedAt[item.key] >= RECENT_KEYS)
  {
    RunKeeps(states, events, n);
  }

  /** While its item is live, a key is a duplicate; the index is the inverse of the items' keys. */
  lemma LiveKeysAreDuplicates(states: seq<State>, events: seq<Event>, n: nat, item: PendingItem, album: Option<Album>)
    requires IsRun(states, events) && n < |states| && item.key != ""
    ensures (exists id :: id in states[n].q.items && states[n].q.items[id].key == item.key)
            <==> item.key in states[n].q.keys
    ensures item.key in states[n].q.keys ==> SubmitAnswer(states[n], item, album) == Duplicate
    ensures !(item.key in states[n].q.keys && item.key in states[n].q.recent)
  {
    RunKeeps(states, events, n);
    var q := states[n].q;
    if item.key in q.keys {
      assert q.items[q.keys[item.key]].key == item.key;
    }
  }
}
