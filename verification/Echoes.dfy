/** Echoes of what tlgr sends itself: a reply is recognised for ten seconds in every run, a forward is not. */
module Echoes {
  import opened Basics
  import opened Items
  import opened Queues
  import opened Machine
  import opened Safety
  import opened Promises

  // ---- when tlgr last sent to a chat --------------------------------------------------------------

  /** Time goes on, and the last send to a chat is the one it was, or one just now. */
  ghost predicate SendsStand(s: State, t: State) {
    && s.now <= t.now
    && s.ownSendAt.Keys <= t.ownSendAt.Keys
    && forall chat :: chat in t.ownSendAt ==>
         t.ownSendAt[chat] == s.now || (chat in s.ownSendAt && t.ownSendAt[chat] == s.ownSendAt[chat])
  }

  lemma AnnouncedStand(s: State, t: State)
    requires Announces(s, t) && s.now <= t.now
    ensures SendsStand(s, t)
  {
  }

  lemma OutsideStands(s: State, e: Event)
    requires !OfWorker(e) && EnabledOutside(s, e)
    ensures NextOutside(s, e).ownSendAt == s.ownSendAt && s.now <= NextOutside(s, e).now
  {
  }

  lemma StepStands(s: State, kind: Kind, head: string, choice: Choice)
    requires EnabledStep(s, kind, head, choice)
    ensures var t := Stepped(s, kind, head, choice); t.ownSendAt == s.ownSendAt && t.now == s.now
  {
  }

  lemma {:induction false} NotedStands(s: State, sent: seq<Sent>)
    ensures SendsStand(s, SentNoted(s, sent)) && SentNoted(s, sent).now == s.now
  {
    if sent != [] { NotedStands(s, sent[..|sent| - 1]); }
  }

  lemma AnswerStands(s: State, kind: Kind, sweep: seq<string>)
    requires EnabledWorker(s, ReadDone(kind, sweep))
    ensures var t := NextWorker(s, ReadDone(kind, sweep)); Announces(s, t) && t.now == s.now
  {
    var batch := s.pcs[kind].batch;
    var item := s.q.items[batch[0]];
    if kind == React {
      var noted := Noted(s, PlaceOf(item), s.pcs[kind].target);
      assert Spoken(noted, ReactIssued(noted, batch, item, sweep));
    }
  }

  lemma EndStands(s: State, e: Event)
    requires (e.Break? || e.Settle? || e.Stop?) && EnabledWorker(s, e)
    ensures NextWorker(s, e).ownSendAt == s.ownSendAt && NextWorker(s, e).now == s.now
    ensures NextWorker(s, e).calls == s.calls
  {
  }

  lemma BeginStands(s: State, e: Event)
    requires (e.Begin? || e.Wake?) && EnabledWorker(s, e)
    ensures Announces(s, NextWorker(s, e)) && s.now <= NextWorker(s, e).now
  {
    assert Spoken(s, NextWorker(s, e));
  }

  lemma EventStands(s: State, e: Event, t: State)
    requires Takes(s, e, t)
    ensures SendsStand(s, t)
  {
    if !OfWorker(e) { OutsideStands(s, e); }
    else if e.Step? { StepStands(s, e.kind, e.head, e.choice); }
    else if e.Begin? || e.Wake? { BeginStands(s, e); AnnouncedStand(s, t); }
    else if e.ReadDone? { AnswerStands(s, e.kind, e.sweep); AnnouncedStand(s, t); }
    else if e.ActDone? { NotedStands(s.(pcs := s.pcs[e.kind := Closing(s.pcs[e.kind].batch, Ok)]), e.sent); }
    else { EndStands(s, e); }
  }

  lemma RunStands(states: seq<State>, events: seq<Event>, n: nat)
    requires IsRun(states, events) && 0 < n < |states|
    ensures SendsStand(states[n - 1], states[n])
  {
    var s, e, t := states[n - 1], events[n - 1], states[n];
    assert Takes(s, e, t) by { RunStep(states, events, n); }
    EventStands(s, e, t);
  }

  /** No send lies in the future. */
  lemma {:induction false} SendsArePast(states: seq<State>, events: seq<Event>, n: nat)
    requires IsRun(states, events) && n < |states|
    ensures forall chat :: chat in states[n].ownSendAt ==> states[n].ownSendAt[chat] <= states[n].now
  {
    if n > 0 {
      SendsArePast(states, events, n - 1);
      RunStands(states, events, n);
    }
  }

  /** In every run time goes on, and the last send to a chat is never forgotten and never moves back. */
  lemma {:induction false} SendsNeverFall(states: seq<State>, events: seq<Event>, i: nat, j: nat, chatId: int)
    requires IsRun(states, events) && i <= j < |states| && chatId in states[i].ownSendAt
    ensures chatId in states[j].ownSendAt && states[i].ownSendAt[chatId] <= states[j].ownSendAt[chatId]
    ensures states[i].now <= states[j].now
  {
    if i < j {
      SendsNeverFall(states, events, i, j - 1, chatId);
      SendsArePast(states, events, j - 1);
      RunStands(states, events, j);
    }
  }

  // ---- replies ------------------------------------------------------------------------------------------

  /** The event sends a message to the chat. */
  ghost predicate SendsTo(s: State, t: State, chatId: int) {
    |t.calls| > |s.calls| && t.calls[|s.calls|].op.SendOp? && t.calls[|s.calls|].op.chatId == chatId
  }

  /** Whatever sends a message has announced it in the same stretch. */
  lemma SendIsAnnounced(s: State, e: Event, t: State, chatId: int)
    requires Takes(s, e, t) && SendsTo(s, t, chatId)
    ensures chatId in t.ownSendAt && t.ownSendAt[chatId] == s.now
  {
    if OfWorker(e) {
      if e.Begin? || e.Wake? { BeginStands(s, e); }
      else if e.ReadDone? { AnswerStands(s, e.kind, e.sweep); }
      else if e.Break? || e.Settle? || e.Stop? { EndStands(s, e); }
    }
  }

  /** An update that may be the echo of a message sent to the chat: the message itself, or the read that goes with it. */
  predicate MayEcho(e: Event, chatId: int) {
    (e.Outgoing? && e.chatId == chatId) || (e.ExternalRead? && e.place.0 == chatId)
  }

  lemma JustSentDropsNothing(s: State, e: Event, chatId: int)
    requires !OfWorker(e) && MayEcho(e, chatId) && EnabledOutside(s, e) && JustSent(s, chatId)
    ensures NextOutside(s, e).q == s.q
  {
    NothingListed(e.drops);
  }

  lemma RunAnnounces(states: seq<State>, events: seq<Event>, k: nat, chatId: int)
    requires IsRun(states, events) && k < |events| && SendsTo(states[k], states[k + 1], chatId)
    ensures chatId in states[k + 1].ownSendAt && states[k + 1].ownSendAt[chatId] == states[k].now
  {
    var s, e, t := states[k], events[k], states[k + 1];
    assert Takes(s, e, t) by { RunStep(states, events, k + 1); }
    SendIsAnnounced(s, e, t, chatId);
  }

  lemma StillJustSent(states: seq<State>, events: seq<Event>, k: nat, n: nat, chatId: int)
    requires IsRun(states, events) && k < n < |states| && SendsTo(states[k], states[k + 1], chatId)
    requires states[n].now - states[k].now < 10.0
    ensures JustSent(states[n], chatId)
  {
    RunAnnounces(states, events, k, chatId);
    SendsNeverFall(states, events, k + 1, n, chatId);
  }

  /** A reply never takes over its own chat. In every run, from a message that goes out at event `k` on: whatever comes
      of its chat less than ten seconds later, an outgoing message or a read, changes no item. */
  lemma ReplyEchoDropsNothing(states: seq<State>, events: seq<Event>, k: nat, n: nat, chatId: int, e: Event)
    requires IsRun(states, events) && k < n < |states| && SendsTo(states[k], states[k + 1], chatId)
    requires states[n].now - states[k].now < 10.0
    requires MayEcho(e, chatId) && Enabled(states[n], e)
    ensures Next(states[n], e).q == states[n].q
  {
    var s := states[n];
    assert JustSent(s, chatId) by { StillJustSent(states, events, k, n, chatId); }
    JustSentDropsNothing(s, e, chatId);
  }

  // ---- the ids of what was sent ------------------------------------------------------------------------

  /** The ids of an answer that belong to the chat, without zeros. */
  function IdsFor(sent: seq<Sent>, chatId: int): seq<int> {
    if sent == [] then []
    else IdsFor(sent[..|sent| - 1], chatId)
         + if sent[|sent| - 1].chatId == chatId then NonZero(sent[|sent| - 1].ids) else []
  }

  /** The ids every answer of a run has reported for the chat, in order. */
  function Reported(events: seq<Event>, n: nat, chatId: int): seq<int>
    requires n <= |events|
  {
    if n == 0 then []
    else Reported(events, n - 1, chatId)
         + if events[n - 1].ActDone? then IdsFor(events[n - 1].sent, chatId) else []
  }

  lemma {:induction false} NonZeroIs(ids: seq<int>)
    ensures forall id :: id in NonZero(ids) <==> id in ids && id != 0
  {
    if ids != [] {
      NonZeroIs(ids[..|ids| - 1]);
      assert ids == ids[..|ids| - 1] + [ids[|ids| - 1]];
    }
  }

  /** The ids remembered of a chat, when it has just been told these. */
  ghost predicate Remembers(s: State, chatId: int, told: seq<int>, t: State) {
    Get(t.ownSent, chatId, []) == LastN(Get(s.ownSent, chatId, []) + told, 200)
  }

  lemma NothingTold(s: State, chatId: int, t: State)
    requires |Get(s.ownSent, chatId, [])| <= 200 && Get(t.ownSent, chatId, []) == Get(s.ownSent, chatId, [])
    ensures Remembers(s, chatId, [], t)
  {
    var ids := Get(s.ownSent, chatId, []);
    assert ids + [] == ids;
  }

  lemma NotedOne(s: State, sent: Sent, chatId: int)
    requires chatId != 0 && |Get(s.ownSent, chatId, [])| <= 200
    ensures Remembers(s, chatId, if sent.chatId == chatId then NonZero(sent.ids) else [],
                      SentTo(s, sent.chatId, sent.ids))
  {
    if sent.chatId != chatId { NothingTold(s, chatId, SentTo(s, sent.chatId, sent.ids)); }
  }

  lemma ToldTwice(s: State, chatId: int, a: seq<int>, m: State, b: seq<int>, t: State)
    requires Remembers(s, chatId, a, m) && Remembers(m, chatId, b, t)
    ensures Remembers(s, chatId, a + b, t)
  {
    var ids := Get(s.ownSent, chatId, []);
    LastTwice(ids + a, b, 200);
    assert ids + a + b == ids + (a + b);
  }

  lemma {:induction false} NotedAll(s: State, sent: seq<Sent>, chatId: int)
    requires chatId != 0 && |Get(s.ownSent, chatId, [])| <= 200
    ensures Remembers(s, chatId, IdsFor(sent, chatId), SentNoted(s, sent))
  {
    if sent == [] {
      NothingTold(s, chatId, SentNoted(s, sent));
    } else {
      var front, last := sent[..|sent| - 1], sent[|sent| - 1];
      var m := SentNoted(s, front);
      NotedAll(s, front, chatId);
      NotedOne(m, last, chatId);
      ToldTwice(s, chatId, IdsFor(front, chatId), m, if last.chatId == chatId then NonZero(last.ids) else [],
                SentTo(m, last.chatId, last.ids));
    }
  }

  lemma OutsideNotesNothing(s: State, e: Event)
    requires !OfWorker(e)
    ensures NextOutside(s, e).ownSent == s.ownSent
  {
  }

  lemma StepNotesNothing(s: State, kind: Kind, head: string, choice: Choice)
    requires EnabledStep(s, kind, head, choice)
    ensures Stepped(s, kind, head, choice).ownSent == s.ownSent
  {
  }

  lemma AnswerNotesNothing(s: State, kind: Kind, sweep: seq<string>)
    requires EnabledWorker(s, ReadDone(kind, sweep))
    ensures NextWorker(s, ReadDone(kind, sweep)).ownSent == s.ownSent
  {
    var batch := s.pcs[kind].batch;
    var item := s.q.items[batch[0]];
    var noted := Noted(s, PlaceOf(item), s.pcs[kind].target);
    if kind == React { assert Spoken(noted, ReactIssued(noted, batch, item, sweep)); }
  }

  lemma EndNotesNothing(s: State, e: Event)
    requires (e.Break? || e.Settle? || e.Stop?) && EnabledWorker(s, e)
    ensures NextWorker(s, e).ownSent == s.ownSent
  {
  }

  lemma EventNotes(s: State, e: Event, t: State)
    requires Takes(s, e, t) && !e.ActDone?
    ensures t.ownSent == s.ownSent
  {
    if !OfWorker(e) { OutsideNotesNothing(s, e); }
    else if e.Step? { StepNotesNothing(s, e.kind, e.head, e.choice); }
    else if e.Begin? || e.Wake? { assert Spoken(s, NextWorker(s, e)); }
    else if e.ReadDone? { AnswerNotesNothing(s, e.kind, e.sweep); }
    else { EndNotesNothing(s, e); }
  }

  lemma RunNotes(states: seq<State>, events: seq<Event>, n: nat, chatId: int)
    requires IsRun(states, events) && 0 < n < |states| && chatId != 0
    requires Get(states[n - 1].ownSent, chatId, []) == LastN(Reported(events, n - 1, chatId), 200)
    ensures Get(states[n].ownSent, chatId, []) == LastN(Reported(events, n, chatId), 200)
  {
    var s, e, t := states[n - 1], events[n - 1], states[n];
    assert Takes(s, e, t) by { RunStep(states, events, n); }
    if e.ActDone? {
      NotedAll(s.(pcs := s.pcs[e.kind := Closing(s.pcs[e.kind].batch, Ok)]), e.sent, chatId);
      LastTwice(Reported(events, n - 1, chatId), IdsFor(e.sent, chatId), 200);
    } else {
      EventNotes(s, e, t);
      assert Reported(events, n - 1, chatId) + [] == Reported(events, n - 1, chatId);
    }
  }

  /** In every run the ids by which tlgr knows its own messages in a chat are the last two hundred that the answers of
      its operations have reported for it. */
  lemma {:induction false} SentIdsAreKnown(states: seq<State>, events: seq<Event>, n: nat, chatId: int)
    requires IsRun(states, events) && n < |states| && chatId != 0
    ensures Get(states[n].ownSent, chatId, []) == LastN(Reported(events, n, chatId), 200)
  {
    if n > 0 {
      SentIdsAreKnown(states, events, n - 1, chatId);
      RunNotes(states, events, n, chatId);
    }
  }

  // ---- how far tlgr reads, and when it sends ------------------------------------------------------------------

  /** How far the reads that went out for a place reach. */
  function Asked(calls: seq<Call>, place: Place): int {
    if calls == [] then 0
    else
      var before, op := Asked(calls[..|calls| - 1], place), calls[|calls| - 1].op;
      if op.ReadOp? && op.place == place && op.upTo > before then op.upTo else before
  }

  lemma EventAsks(s: State, t: State, place: Place)
    requires OneCall(s, t) && Get(s.ownRead, place, 0) == Asked(s.calls, place)
    ensures Get(t.ownRead, place, 0) == Asked(t.calls, place)
  {
  }

  lemma RunAsks(states: seq<State>, events: seq<Event>, n: nat, place: Place)
    requires IsRun(states, events) && 0 < n < |states|
    requires Get(states[n - 1].ownRead, place, 0) == Asked(states[n - 1].calls, place)
    ensures Get(states[n].ownRead, place, 0) == Asked(states[n].calls, place)
  {
    var s, e, t := states[n - 1], events[n - 1], states[n];
    assert Takes(s, e, t) by { RunStep(states, events, n); }
    if OfWorker(e) { EventAsks(s, t, place); }
  }

  /** In every run the reads that tlgr takes for its own are those up to the furthest it has asked for. */
  lemma {:induction false} OwnReadIsAsked(states: seq<State>, events: seq<Event>, n: nat, place: Place)
    requires IsRun(states, events) && n < |states|
    ensures Get(states[n].ownRead, place, 0) == Asked(states[n].calls, place)
  {
    if n > 0 {
      OwnReadIsAsked(states, events, n - 1, place);
      RunAsks(states, events, n, place);
    }
  }

  /** An answer that reports a message in the chat. */
  predicate Reports(e: Event, chatId: int) {
    e.ActDone? && chatId != 0 && Names(e.sent, chatId)
  }

  predicate Names(sent: seq<Sent>, chatId: int) {
    exists i :: 0 <= i < |sent| && sent[i].chatId == chatId
  }

  /** When a reply to the chat last went out, or an answer last reported a message in it. */
  ghost function LastSend(states: seq<State>, events: seq<Event>, n: nat, chatId: int): Option<real>
    requires n <= |events| && n < |states|
  {
    if n == 0 then None
    else if SendsTo(states[n - 1], states[n], chatId) || Reports(events[n - 1], chatId) then Some(states[n - 1].now)
    else LastSend(states, events, n - 1, chatId)
  }

  function SendTime(s: State, chatId: int): Option<real> {
    if chatId in s.ownSendAt then Some(s.ownSendAt[chatId]) else None
  }

  lemma NamesOneMore(sent: seq<Sent>, chatId: int)
    requires sent != []
    ensures Names(sent, chatId) <==> Names(sent[..|sent| - 1], chatId) || sent[|sent| - 1].chatId == chatId
  {
    if Names(sent, chatId) {
      var i :| 0 <= i < |sent| && sent[i].chatId == chatId;
      if i < |sent| - 1 { assert sent[..|sent| - 1][i].chatId == chatId; }
    }
  }

  lemma SentAt(s: State, sent: Sent, chatId: int)
    ensures var t := SentTo(s, sent.chatId, sent.ids);
      && t.now == s.now
      && SendTime(t, chatId) == if chatId != 0 && sent.chatId == chatId then Some(s.now) else SendTime(s, chatId)
  {
  }

  lemma {:induction false} NotedAt(s: State, sent: seq<Sent>, chatId: int)
    ensures SendTime(SentNoted(s, sent), chatId)
            == if chatId != 0 && Names(sent, chatId) then Some(s.now) else SendTime(s, chatId)
    ensures SentNoted(s, sent).now == s.now
  {
    if sent != [] {
      NotedAt(s, sent[..|sent| - 1], chatId);
      SentAt(SentNoted(s, sent[..|sent| - 1]), sent[|sent| - 1], chatId);
      NamesOneMore(sent, chatId);
    }
  }

  lemma AnnouncedAt(s: State, t: State, chatId: int)
    requires Announces(s, t)
    ensures SendTime(t, chatId) == if SendsTo(s, t, chatId) then Some(s.now) else SendTime(s, chatId)
  {
  }

  lemma OthersAnnounce(s: State, e: Event, t: State)
    requires Takes(s, e, t) && !e.ActDone?
    ensures Announces(s, t)
  {
    if !OfWorker(e) { OutsideStands(s, e); }
    else if e.Step? { StepStands(s, e.kind, e.head, e.choice); }
    else if e.Begin? || e.Wake? { BeginStands(s, e); }
    else if e.ReadDone? { AnswerStands(s, e.kind, e.sweep); }
    else { EndStands(s, e); }
  }

  lemma RunSends(states: seq<State>, events: seq<Event>, n: nat, chatId: int)
    requires IsRun(states, events) && 0 < n < |states|
    ensures SendTime(states[n], chatId)
            == if SendsTo(states[n - 1], states[n], chatId) || Reports(events[n - 1], chatId)
               then Some(states[n - 1].now) else SendTime(states[n - 1], chatId)
  {
    var s, e, t := states[n - 1], events[n - 1], states[n];
    assert Takes(s, e, t) by { RunStep(states, events, n); }
    if e.ActDone? {
      NotedAt(s.(pcs := s.pcs[e.kind := Closing(s.pcs[e.kind].batch, Ok)]), e.sent, chatId);
      assert Silent(s, t);
    } else {
      OthersAnnounce(s, e, t);
      AnnouncedAt(s, t, chatId);
    }
  }

  /** In every run tlgr takes just this for the time of its last send to a chat. */
  lemma {:induction false} SendTimesAreExact(states: seq<State>, events: seq<Event>, n: nat, chatId: int)
    requires IsRun(states, events) && n < |states|
    ensures SendTime(states[n], chatId) == LastSend(states, events, n, chatId)
  {
    if n > 0 {
      SendTimesAreExact(states, events, n - 1, chatId);
      RunSends(states, events, n, chatId);
    }
  }

  // ---- forwards ----------------------------------------------------------------------------------------------

  /** A forward is out, and nothing is known yet of its message. */
  ghost predicate ForwardIsOut(s: State, chatId: int, msgId: int) {
    && BatchLive(s, Forward) && s.pcs[Forward].Acting?
    && s.q.items[s.pcs[Forward].batch[0]].payload.to == chatId
    && msgId !in Get(s.ownSent, chatId, []) && !JustSent(s, chatId)
  }

  /** A forward is not announced. When its message comes back before the answer of the operation it is taken for the
      user's own, and takes over the chat it went to. Once the answer is noted the same message drops nothing; but an
      answer that is not noted, as of the variants that send the content anew, leaves it as it was. */
  lemma ForwardEchoTakesOver(s: State, chatId: int, msgId: int, drops: seq<string>)
    requires QueueInv(s.q) && ForwardIsOut(s, chatId, msgId)
    requires Enabled(s, Outgoing(chatId, msgId, drops))
    ensures IsTakeover(s.q, chatId, None, msgId, SetOf(drops))
    ensures SupersedesJust(s.q, SetOf(drops), Next(s, Outgoing(chatId, msgId, drops)).q)
    ensures chatId != 0 ==> NotedDropsNothing(s, chatId, msgId)
    ensures UnnotedDrops(s, chatId, msgId, drops)
  {
    SendTakeoverIsExact(s, chatId, msgId, drops);
    ForwardUnnoted(s, chatId, msgId, drops);
    if chatId != 0 { ForwardNoted(s, chatId, msgId); }
  }

  /** The answer names the message, and then the message drops nothing. */
  ghost predicate NotedDropsNothing(s: State, chatId: int, msgId: int) {
    var answer := ActDone(Forward, [Sent(chatId, [msgId])]);
    Enabled(s, answer)
    && var t := Next(s, answer);
       && t.q == s.q && Enabled(t, Outgoing(chatId, msgId, [])) && Next(t, Outgoing(chatId, msgId, [])).q == s.q
  }

  /** The answer names nothing, and the message takes over the chat still. */
  ghost predicate UnnotedDrops(s: State, chatId: int, msgId: int, drops: seq<string>) {
    Enabled(s, ActDone(Forward, []))
    && var t := Next(s, ActDone(Forward, []));
       && t.q == s.q && Enabled(t, Outgoing(chatId, msgId, drops))
       && SupersedesJust(s.q, SetOf(drops), Next(t, Outgoing(chatId, msgId, drops)).q)
  }

  lemma ForwardNoted(s: State, chatId: int, msgId: int)
    requires BatchLive(s, Forward) && s.pcs[Forward].Acting? && chatId != 0
    ensures NotedDropsNothing(s, chatId, msgId)
  {
    ForwardIsNoted(s.(pcs := s.pcs[Forward := Closing(s.pcs[Forward].batch, Ok)]), chatId, msgId);
  }

  lemma ForwardUnnoted(s: State, chatId: int, msgId: int, drops: seq<string>)
    requires QueueInv(s.q) && ForwardIsOut(s, chatId, msgId) && Enabled(s, Outgoing(chatId, msgId, drops))
    ensures UnnotedDrops(s, chatId, msgId, drops)
  {
    var closing := s.(pcs := s.pcs[Forward := Closing(s.pcs[Forward].batch, Ok)]);
    assert NextWorker(s, ActDone(Forward, [])) == closing;
    SendTakeoverIsExact(closing, chatId, msgId, drops);
  }

  lemma ForwardIsNoted(s: State, chatId: int, msgId: int)
    requires chatId != 0
    ensures var t := SentNoted(s, [Sent(chatId, [msgId])]);
      t.q == s.q && JustSent(t, chatId) && Enabled(t, Outgoing(chatId, msgId, []))
  {
    var sent := [Sent(chatId, [msgId])];
    assert sent[..0] == [];
    assert SentNoted(s, sent) == SentTo(SentNoted(s, sent[..0]), chatId, [msgId]);
    assert SendTakeover(SentNoted(s, sent), chatId, msgId) == {};
  }
}
