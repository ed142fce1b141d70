/** What is counted done was really sent, and what is started was really the next. */
module Deliveries {
  import opened Basics
  import opened Items
  import opened Queues
  import opened Machine
  import opened Safety
  import Store
  import Accounts
  import Executions

  // ---- requests -------------------------------------------------------------------------------

  /** The request is what the item's action is for, with the item's own chat and message in it. */
  predicate Serves(op: Op, item: PendingItem) {
    match item.action
    case React => op.ReactionOp? && op.place == PlaceOf(item) && op.msgId == item.msgId
    case Read =>
      && op.ReadOp? && op.place == PlaceOf(item) && item.msgId <= op.upTo
      && (item.payload.mentions ==> op.mentions) && (item.payload.reactions ==> op.reactions)
    case View => op.ViewOp? && op.chatId == item.chatId && op.mode == item.payload.mode && item.msgId in op.ids
    case Forward => op == ForwardOp(item.chatId, item.msgId, item.payload.to)
    case Reply => op == SendOp(item.chatId, item.msgId)
  }

  /** A request went out for this very item. */
  ghost predicate WentOut(calls: seq<Call>, item: PendingItem) {
    exists i :: 0 <= i < |calls| && Serves(calls[i].op, item) && item in calls[i].items
  }

  /** The worker has issued the request its action is for. */
  predicate Issued(pc: Pc) {
    pc.Acting? || (pc.Closing? && pc.verdict == Ok)
  }

  /** Whatever else a worker does first, the request for each item of its batch has gone out by then. */
  ghost predicate BatchWentOut(q: Queue, calls: seq<Call>, pc: Pc) {
    Issued(pc) ==> forall id :: id in pc.Batch() ==> id in q.items && WentOut(calls, q.items[id])
  }

  predicate HasBadge(item: PendingItem) {
    item.payload.mentions || item.payload.reactions
  }

  /** The reads of a batch that clear a badge have gone out, whether the chat was read up to them or not. */
  ghost predicate BadgesWentOut(q: Queue, calls: seq<Call>, pc: Pc) {
    pc.Reading? || (pc.Closing? && pc.verdict == Ok) ==>
      forall id :: id in pc.Batch() ==> id in q.items && (HasBadge(q.items[id]) ==> WentOut(calls, q.items[id]))
  }

  /** An item counted done, not as a dry run; but a read that clears no badge may have been done already. */
  ghost predicate DoneFor(end: End) {
    end.outcome == Done && !end.item.dryRun && (end.item.action == Read ==> HasBadge(end.item))
  }

  ghost predicate DoneWentOut(s: State) {
    forall id :: id in s.q.ledger.ended && DoneFor(s.q.ledger.ended[id]) ==>
      WentOut(s.calls, s.q.ledger.ended[id].item)
  }

  ghost predicate BatchesWentOut(s: State) {
    && (forall k :: k in s.pcs && k != Read ==> BatchWentOut(s.q, s.calls, s.pcs[k]))
    && (Read in s.pcs ==> BadgesWentOut(s.q, s.calls, s.pcs[Read]))
  }

  lemma StaysOut(calls: seq<Call>, more: seq<Call>, item: PendingItem)
    requires WentOut(calls, item) && calls <= more
    ensures WentOut(more, item)
  {
    var i :| 0 <= i < |calls| && Serves(calls[i].op, item) && item in calls[i].items;
    assert more[i] == calls[i];
  }

  lemma CallsGrow(s: State, e: Event)
    requires Enabled(s, e)
    ensures s.calls <= Next(s, e).calls
  {
    if OfWorker(e) { assert OneCall(s, NextWorker(s, e)); }
  }

  lemma LastWentOut(calls: seq<Call>, call: Call, item: PendingItem)
    requires Serves(call.op, item) && item in call.items
    ensures WentOut(calls + [call], item)
  {
    assert (calls + [call])[|calls|] == call;
  }

  // ---- the worker that issues ------------------------------------------------------------------------

  lemma ReactionWentOut(s: State, batch: seq<string>, item: PendingItem, sweep: seq<string>)
    requires item.action == React
    ensures WentOut(ReactIssued(s, batch, item, sweep).calls, item)
  {
    LastWentOut(s.calls, Call(ReactionOp(PlaceOf(item), item.msgId, Get(s.readMarks, PlaceOf(item), 0)), [item]), item);
  }

  lemma ViewWentOut(s: State, batch: seq<string>, items: seq<PendingItem>, i: nat)
    requires i < |items| <= MAX_BATCH && items[i].action == View
    requires BatchKeyOf(items[i]) == BatchKeyOf(items[0]) && items[0].action == View
    ensures WentOut(ViewBegun(s, batch, items).calls, items[i])
  {
    IdsAreFew(items);
    var op := ViewOp(items[0].chatId, items[0].payload.mode, Cut(Ids(items), MAX_BATCH));
    LastWentOut(s.calls, Call(op, items), items[i]);
  }

  lemma ReplyWentOut(s: State, batch: seq<string>, item: PendingItem)
    requires item.action == Reply && !ShowsTyping(item)
    ensures WentOut(ReplyBegun(s, batch, item).calls, item)
  {
    LastWentOut(s.calls, Call(SendOp(item.chatId, item.msgId), [item]), item);
  }

  lemma BatchIsOne(s: State, kind: Kind)
    requires PcsOk(s) && kind in s.pcs && !s.pcs[kind].Idle? && kind !in {Read, View}
    ensures s.pcs[kind].batch == [s.pcs[kind].batch[0]] && s.pcs[kind].batch[0] in s.q.items
    ensures s.pcs[kind].batch[0] in s.q.running && s.q.items[s.pcs[kind].batch[0]].action == kind
  {
    assert PcOk(s.q, s.readMarks, s.ownRead, kind, s.pcs[kind]);
  }

  lemma PacedIsNotIssued(s: State, batch: seq<string>, item: PendingItem, later: real, jitter: real)
    requires Read in s.pacers
    ensures !Issued(ReadPaced(s, batch, item, later, jitter).pcs[React])
  {
  }

  lemma ReactBegunIs(s: State, later: real, jitter: real, sweep: seq<string>)
    requires EnabledBegin(s, React, later, jitter, sweep)
    ensures var batch, item := s.pcs[React].batch, s.q.items[s.pcs[React].batch[0]];
      Begun(s, React, later, jitter, sweep)
      == if Get(s.readMarks, PlaceOf(item), 0) < item.msgId then ReadPaced(s, batch, item, later, jitter)
         else ReactIssued(s, batch, item, sweep)
  {
  }

  /** The reaction is out, for the item as it still is in the queue. */
  lemma ReactedWentOut(s: State, batch: seq<string>, item: PendingItem, sweep: seq<string>)
    requires batch == [item.id] && item.action == React
    requires var r := AllFinished(s.q, sweep, Done); item.id in r.items && r.items[item.id] == item
    ensures var t := ReactIssued(s, batch, item, sweep);
      React in t.pcs && BatchWentOut(t.q, t.calls, t.pcs[React])
  {
    ReactionWentOut(s, batch, item, sweep);
  }

  lemma ReactBeginIssues(s: State, later: real, jitter: real, sweep: seq<string>)
    requires Inv(s) && EnabledBegin(s, React, later, jitter, sweep)
    ensures var t := Begun(s, React, later, jitter, sweep);
      React in t.pcs && BatchWentOut(t.q, t.calls, t.pcs[React])
  {
    var batch := s.pcs[React].batch;
    var item := s.q.items[batch[0]];
    BatchIsOne(s, React);
    assert item.id == batch[0];
    ReactBegunIs(s, later, jitter, sweep);
    if Get(s.readMarks, PlaceOf(item), 0) < item.msgId {
      PacedIsNotIssued(s, batch, item, later, jitter);
    } else {
      assert Executions.Alone(s.q, AllFinished(s.q, sweep, Done), item.id) by {
        Executions.SweepLeavesAlone(s, PlaceOf(item), item.msgId, sweep, item.id);
      }
      ReactedWentOut(s, batch, item, sweep);
    }
  }

  lemma ViewBeginIssues(s: State, later: real, jitter: real, sweep: seq<string>)
    requires Inv(s) && EnabledBegin(s, View, later, jitter, sweep)
    ensures var t := Begun(s, View, later, jitter, sweep);
      View in t.pcs && BatchWentOut(t.q, t.calls, t.pcs[View])
  {
    var batch := s.pcs[View].batch;
    var items := ItemsAt(s.q, batch);
    var t := ViewBegun(s, batch, items);
    assert PcOk(s.q, s.readMarks, s.ownRead, View, s.pcs[View]);
    forall id | id in batch ensures id in t.q.items && WentOut(t.calls, t.q.items[id]) {
      var i :| 0 <= i < |batch| && batch[i] == id;
      assert items[i] == s.q.items[id] && batch[0] in batch;
      ViewWentOut(s, batch, items, i);
    }
  }

  lemma RepliedWentOut(s: State, batch: seq<string>, item: PendingItem)
    requires batch == [item.id] && item.action == Reply && item.id in s.q.items && s.q.items[item.id] == item
    ensures var t := ReplyBegun(s, batch, item);
      Reply in t.pcs && BatchWentOut(t.q, t.calls, t.pcs[Reply])
  {
    if !ShowsTyping(item) { ReplyWentOut(s, batch, item); }
  }

  lemma ReplyBeginIssues(s: State, later: real, jitter: real, sweep: seq<string>)
    requires Inv(s) && EnabledBegin(s, Reply, later, jitter, sweep)
    ensures var t := Begun(s, Reply, later, jitter, sweep);
      Reply in t.pcs && BatchWentOut(t.q, t.calls, t.pcs[Reply])
  {
    var item := s.q.items[s.pcs[Reply].batch[0]];
    BatchIsOne(s, Reply);
    assert item.id == s.pcs[Reply].batch[0];
    Executions.ReplyBegunIs(s, later, jitter, sweep);
    RepliedWentOut(s, s.pcs[Reply].batch, item);
  }

  lemma ForwardedWentOut(s: State, batch: seq<string>, item: PendingItem)
    requires batch == [item.id] && item.action == Forward && item.id in s.q.items && s.q.items[item.id] == item
    ensures var t := ForwardBegun(s, batch, item);
      Forward in t.pcs && BatchWentOut(t.q, t.calls, t.pcs[Forward])
  {
    LastWentOut(s.calls, Call(ForwardOp(item.chatId, item.msgId, item.payload.to), [item]), item);
  }

  lemma ForwardBeginIssues(s: State, later: real, jitter: real, sweep: seq<string>)
    requires Inv(s) && EnabledBegin(s, Forward, later, jitter, sweep)
    ensures var t := Begun(s, Forward, later, jitter, sweep);
      Forward in t.pcs && BatchWentOut(t.q, t.calls, t.pcs[Forward])
  {
    var item := s.q.items[s.pcs[Forward].batch[0]];
    BatchIsOne(s, Forward);
    assert item.id == s.pcs[Forward].batch[0];
    ForwardedWentOut(s, s.pcs[Forward].batch, item);
  }

  lemma AnswerIssues(s: State, sweep: seq<string>)
    requires Inv(s) && EnabledWorker(s, ReadDone(React, sweep))
    ensures var t := NextWorker(s, ReadDone(React, sweep));
      React in t.pcs && BatchWentOut(t.q, t.calls, t.pcs[React])
  {
    var batch := s.pcs[React].batch;
    var item := s.q.items[batch[0]];
    BatchIsOne(s, React);
    assert item.id == batch[0];
    assert Executions.Alone(s.q, AllFinished(s.q, sweep, Done), item.id) by {
      Executions.SweepLeavesAlone(s, PlaceOf(item), s.pcs[React].target, sweep, item.id);
    }
    ReactedWentOut(Noted(s, PlaceOf(item), s.pcs[React].target), batch, item, sweep);
  }

  lemma BeginIssues(s: State, kind: Kind, later: real, jitter: real, sweep: seq<string>)
    requires Inv(s) && EnabledBegin(s, kind, later, jitter, sweep) && kind != Read
    ensures var t := Begun(s, kind, later, jitter, sweep);
      kind in t.pcs && BatchWentOut(t.q, t.calls, t.pcs[kind])
  {
    match kind
    case React => ReactBeginIssues(s, later, jitter, sweep);
    case View => ViewBeginIssues(s, later, jitter, sweep);
    case Forward => ForwardBeginIssues(s, later, jitter, sweep);
    case Reply => ReplyBeginIssues(s, later, jitter, sweep);
  }

  lemma StepIssuesNothing(s: State, kind: Kind, head: string, choice: Choice)
    requires EnabledStep(s, kind, head, choice)
    ensures var t := Stepped(s, kind, head, choice);
      kind in t.pcs && !Issued(t.pcs[kind])
  {
  }

  lemma WaitingIssuesNothing(s: State, e: Event)
    requires (e.Step? || e.Wake? || e.Break? || e.Settle? || e.Stop?) && EnabledWorker(s, e)
    ensures var t := NextWorker(s, e);
      e.kind in t.pcs && !Issued(t.pcs[e.kind])
  {
    if e.Step? { StepIssuesNothing(s, e.kind, e.head, e.choice); }
    else if e.Wake? { PacedIsNotIssued(s, s.pcs[React].batch, s.q.items[s.pcs[React].batch[0]], e.later, e.jitter); }
  }

  lemma AnsweredStaysIssued(s: State, kind: Kind, sent: seq<Sent>)
    requires EnabledWorker(s, ActDone(kind, sent)) && BatchWentOut(s.q, s.calls, s.pcs[kind])
    ensures var t := NextWorker(s, ActDone(kind, sent));
      kind in t.pcs && BatchWentOut(t.q, t.calls, t.pcs[kind])
  {
  }

  lemma OwnEventIssues(s: State, e: Event)
    requires Inv(s) && OfWorker(e) && EnabledWorker(s, e) && e.kind != Read
    requires BatchWentOut(s.q, s.calls, s.pcs[e.kind])
    ensures var t := NextWorker(s, e);
      e.kind in t.pcs && BatchWentOut(t.q, t.calls, t.pcs[e.kind])
  {
    if e.Begin? || e.ReadDone? || e.ActDone? { BusyWorkerIssues(s, e); } else { WaitingIssuesNothing(s, e); }
  }

  lemma ReaderIsReact(s: State, kind: Kind)
    requires PcsOk(s) && kind in s.pcs && s.pcs[kind].Reading? && kind != Read
    ensures kind == React
  {
    assert PcOk(s.q, s.readMarks, s.ownRead, kind, s.pcs[kind]);
  }

  lemma BusyWorkerIssues(s: State, e: Event)
    requires Inv(s) && (e.Begin? || e.ReadDone? || e.ActDone?) && EnabledWorker(s, e) && e.kind != Read
    requires BatchWentOut(s.q, s.calls, s.pcs[e.kind])
    ensures var t := NextWorker(s, e);
      e.kind in t.pcs && BatchWentOut(t.q, t.calls, t.pcs[e.kind])
  {
    if e.Begin? { BeginIssues(s, e.kind, e.later, e.jitter, e.sweep); }
    else if e.ActDone? { AnsweredStaysIssued(s, e.kind, e.sent); }
    else { ReaderIsReact(s, e.kind); AnswerIssues(s, e.sweep); }
  }

  /** A worker another event belongs to is where it was, and so are its items. */
  lemma OtherEventKeeps(s: State, e: Event, kind: Kind)
    requires Inv(s) && Enabled(s, e) && (OfWorker(e) ==> e.kind != kind) && kind in s.pcs
    requires BatchWentOut(s.q, s.calls, s.pcs[kind])
    ensures kind in Next(s, e).pcs && BatchWentOut(Next(s, e).q, Next(s, e).calls, s.pcs[kind])
    ensures Next(s, e).pcs[kind] == s.pcs[kind]
  {
    var t := Next(s, e);
    if OfWorker(e) { Executions.WorkerMovesItself(s, e, kind); } else { Executions.OutsideMovesNobody(s, e); }
    CallsGrow(s, e);
    if Issued(s.pcs[kind]) {
      forall id | id in s.pcs[kind].Batch() ensures id in t.q.items && WentOut(t.calls, t.q.items[id]) {
        OtherItemStaysOut(s, e, kind, id);
      }
    }
  }

  lemma OtherItemStaysOut(s: State, e: Event, kind: Kind, id: string)
    requires Inv(s) && Enabled(s, e) && (OfWorker(e) ==> e.kind != kind) && kind in s.pcs
    requires id in s.pcs[kind].Batch() && id in s.q.items && WentOut(s.calls, s.q.items[id])
    requires s.calls <= Next(s, e).calls
    ensures id in Next(s, e).q.items && WentOut(Next(s, e).calls, Next(s, e).q.items[id])
  {
    assert PcOk(s.q, s.readMarks, s.ownRead, kind, s.pcs[kind]);
    assert Executions.Alone(s.q, Next(s, e).q, id) by { Executions.OthersLeaveAlone(s, e, id); }
    StaysOut(s.calls, Next(s, e).calls, s.q.items[id]);
  }

  lemma EventKeepsBatches(s: State, e: Event, t: State)
    requires Inv(s) && Takes(s, e, t) && BatchesWentOut(s)
    ensures BatchesWentOut(t)
  {
    forall k | k in t.pcs && k != Read ensures BatchWentOut(t.q, t.calls, t.pcs[k]) {
      assert k in s.pcs by { assert Safety.Full(s.pcs); }
      if OfWorker(e) && e.kind == k { OwnEventIssues(s, e); } else { OtherEventKeeps(s, e, k); }
    }
    assert Read in s.pcs by { assert Safety.Full(s.pcs); }
    if OfWorker(e) && e.kind == Read { ReadWorkerClears(s, e); } else { OtherEventClears(s, e); }
  }

  // ---- badges ---------------------------------------------------------------------------------------

  lemma ReadGoesOut(s: State, batch: seq<string>, items: seq<PendingItem>, i: nat)
    requires i < |items| && items[i].action == Read && items[0].action == Read && AnyBadge(items)
    requires BatchKeyOf(items[i]) == BatchKeyOf(items[0])
    ensures WentOut(ReadBegun(s, batch, items).calls, items[i])
  {
    HighestBounds(items);
    LastWentOut(s.calls, Call(ReadFor(Read, PlaceOf(items[0]), Highest(items), items), items), items[i]);
  }

  lemma ReadBeginClears(s: State, later: real, jitter: real, sweep: seq<string>)
    requires Inv(s) && EnabledBegin(s, Read, later, jitter, sweep)
    ensures var t := Begun(s, Read, later, jitter, sweep);
      Read in t.pcs && BadgesWentOut(t.q, t.calls, t.pcs[Read])
  {
    var batch := s.pcs[Read].batch;
    var items := ItemsAt(s.q, batch);
    var t := ReadBegun(s, batch, items);
    assert PcOk(s.q, s.readMarks, s.ownRead, Read, s.pcs[Read]);
    forall id | id in batch ensures id in t.q.items && (HasBadge(t.q.items[id]) ==> WentOut(t.calls, t.q.items[id])) {
      var i :| 0 <= i < |batch| && batch[i] == id;
      assert items[i] == s.q.items[id] && batch[0] in batch;
      if HasBadge(items[i]) { ReadGoesOut(s, batch, items, i); }
    }
  }

  lemma ReadAnswerClears(s: State, sweep: seq<string>)
    requires EnabledWorker(s, ReadDone(Read, sweep)) && BadgesWentOut(s.q, s.calls, s.pcs[Read])
    ensures var t := NextWorker(s, ReadDone(Read, sweep));
      Read in t.pcs && BadgesWentOut(t.q, t.calls, t.pcs[Read])
  {
  }

  lemma StepClearsNothing(s: State, kind: Kind, head: string, choice: Choice)
    requires EnabledStep(s, kind, head, choice)
    ensures var t := Stepped(s, kind, head, choice);
      kind in t.pcs && !t.pcs[kind].Reading? && !t.pcs[kind].Closing?
  {
  }

  lemma EndClearsNothing(s: State, e: Event)
    requires (e.Break? || e.Settle? || e.Stop?) && EnabledWorker(s, e)
    ensures var t := NextWorker(s, e);
      e.kind in t.pcs && !t.pcs[e.kind].Reading? && !(t.pcs[e.kind].Closing? && t.pcs[e.kind].verdict == Ok)
  {
  }

  lemma NeverActs(s: State)
    requires PcsOk(s)
    ensures Read in s.pcs && !s.pcs[Read].Acting?
  {
    assert Safety.Full(s.pcs);
    assert PcOk(s.q, s.readMarks, s.ownRead, Read, s.pcs[Read]);
  }

  lemma ReadWorkerClears(s: State, e: Event)
    requires Inv(s) && OfWorker(e) && EnabledWorker(s, e) && e.kind == Read
    requires BadgesWentOut(s.q, s.calls, s.pcs[Read])
    ensures var t := NextWorker(s, e); Read in t.pcs && BadgesWentOut(t.q, t.calls, t.pcs[Read])
  {
    NeverActs(s);
    if e.Begin? { ReadBeginClears(s, e.later, e.jitter, e.sweep); }
    else if e.ReadDone? { ReadAnswerClears(s, e.sweep); }
    else if e.Step? { StepClearsNothing(s, e.kind, e.head, e.choice); }
    else { EndClearsNothing(s, e); }
  }

  lemma OtherEventClears(s: State, e: Event)
    requires Inv(s) && Enabled(s, e) && (OfWorker(e) ==> e.kind != Read) && Read in s.pcs
    requires BadgesWentOut(s.q, s.calls, s.pcs[Read])
    ensures var t := Next(s, e); Read in t.pcs && BadgesWentOut(t.q, t.calls, t.pcs[Read])
  {
    var t := Next(s, e);
    if OfWorker(e) { Executions.WorkerMovesItself(s, e, Read); } else { Executions.OutsideMovesNobody(s, e); }
    CallsGrow(s, e);
    if s.pcs[Read].Reading? || (s.pcs[Read].Closing? && s.pcs[Read].verdict == Ok) {
      forall id | id in s.pcs[Read].Batch()
        ensures id in t.q.items && (HasBadge(t.q.items[id]) ==> WentOut(t.calls, t.q.items[id]))
      {
        OtherItemIsSame(s, e, id);
        if HasBadge(s.q.items[id]) { StaysOut(s.calls, t.calls, s.q.items[id]); }
      }
    }
  }

  lemma OtherItemIsSame(s: State, e: Event, id: string)
    requires Inv(s) && Enabled(s, e) && (OfWorker(e) ==> e.kind != Read) && Read in s.pcs && id in s.pcs[Read].Batch()
    ensures id in s.q.items && id in Next(s, e).q.items && Next(s, e).q.items[id] == s.q.items[id]
  {
    assert PcOk(s.q, s.readMarks, s.ownRead, Read, s.pcs[Read]);
    assert Executions.Alone(s.q, Next(s, e).q, id) by { Executions.OthersLeaveAlone(s, e, id); }
  }

  // ---- what is newly counted done ---------------------------------------------------------------------

  /** Among the new ends, those counted done (and not dry, and no mere reads) are those of this settled batch. */
  ghost predicate NewlyDone(s: State, e: Event, ended: map<string, End>) {
    forall id :: id in ended && id !in s.q.ledger.ended && DoneFor(ended[id]) ==>
      && e.Settle? && e.kind in s.pcs && s.pcs[e.kind] == Closing(s.pcs[e.kind].Batch(), Ok)
      && id in s.pcs[e.kind].Batch() && id in s.q.items && ended[id].item == s.q.items[id]
  }

  lemma DropsAreNotDone(s: State, e: Event, q: Queue, drops: seq<string>, outcome: Outcome)
    requires QueueInv(q) && Distinct(drops) && SetOf(drops) <= q.items.Keys - q.running
    requires q.ledger.ended == s.q.ledger.ended
    requires outcome == Done ==> forall id :: id in SetOf(drops) ==> q.items[id].action == Read && !HasBadge(q.items[id])
    ensures NewlyDone(s, e, AllFinished(q, drops, outcome).ledger.ended)
  {
    AllFinishedKeeps(q, drops, outcome);
  }

  lemma CancelIsNotDone(s: State, sel: Selector, drops: seq<string>)
    requires Inv(s) && EnabledOutside(s, CancelItems(sel, drops))
    ensures NewlyDone(s, CancelItems(sel, drops), NextOutside(s, CancelItems(sel, drops)).q.ledger.ended)
  {
    var m := Doomed(s.q, ToDoom(s.q, sel));
    DoomedKeeps(s.q, ToDoom(s.q, sel));
    EnumerationIsSet(drops, ToCancel(s.q, sel));
    DropsAreNotDone(s, CancelItems(sel, drops), m, drops, Superseded);
  }

  lemma {:induction false} ResumedEnds(q: Queue, held: seq<Store.Record>, active: set<string>)
    ensures Store.Resumed(q, held, active).ledger.ended == q.ledger.ended
  {
    if held != [] { ResumedEnds(q, held[..|held| - 1], active); }
  }

  lemma TakeoverIsNotDone(s: State, e: Event)
    requires Inv(s) && (e.ExternalRead? || e.Outgoing?) && EnabledOutside(s, e)
    ensures NewlyDone(s, e, NextOutside(s, e).q.ledger.ended)
  {
    match e
    case ExternalRead(place, maxId, drops) =>
      EnumerationIsSet(drops, ReadTakeover(s, place, maxId));
      DropsAreNotDone(s, e, s.q, drops, Superseded);
    case Outgoing(chatId, msgId, drops) =>
      EnumerationIsSet(drops, SendTakeover(s, chatId, msgId));
      DropsAreNotDone(s, e, s.q, drops, Superseded);
  }

  lemma TallyEndsNothing(q: Queue, slot: Slot, action: Kind, outcome: Outcome)
    ensures Tallied(q, slot, action, outcome).ledger.ended == q.ledger.ended
  {
  }

  lemma SubmitEndsNothing(s: State, item: PendingItem, album: Option<Album>, hasCaption: bool)
    ensures SubmittedQueue(s, item, album, hasCaption).ledger.ended == s.q.ledger.ended
  {
    match SubmitAnswer(s, item, album)
    case Duplicate =>
    case AlbumMember =>
      var memo := s.albums[album.value];
      var m := if MovesToCaption(s, memo, hasCaption) then CaptionMoved(s.q, memo.itemId.value, item.msgId) else s.q;
      TallyEndsNothing(m, SlotOf(item), item.action, Skipped);
    case Full => TallyEndsNothing(s.q, SlotOf(item), item.action, Errors);
    case Scheduled =>
  }

  lemma OutsideEndsNothing(s: State, e: Event)
    requires e.Tick? || e.Configure? || e.Preload? || e.Close? || e.AlbumRoll? || e.CountOnly? || e.ForgetJob?
    ensures NextOutside(s, e).q.ledger.ended == s.q.ledger.ended
  {
  }

  lemma OutsideIsNotDone(s: State, e: Event)
    requires Inv(s) && EnabledOutside(s, e) && !OfWorker(e)
    ensures NewlyDone(s, e, NextOutside(s, e).q.ledger.ended)
  {
    if e.CancelItems? { CancelIsNotDone(s, e.selector, e.drops); }
    else if e.ExternalRead? || e.Outgoing? { TakeoverIsNotDone(s, e); }
    else if e.Resume? { ResumedEnds(s.q, s.held, e.active); }
    else if e.Submit? { SubmitEndsNothing(s, e.item, e.album, e.hasCaption); }
    else { OutsideEndsNothing(s, e); }
  }

  lemma SweepIsNotDone(s: State, e: Event, place: Place, target: int, sweep: seq<string>)
    requires Inv(s) && SweepOk(s, place, target, sweep)
    ensures NewlyDone(s, e, AllFinished(s.q, sweep, Done).ledger.ended)
  {
    EnumerationIsSet(sweep, SatisfiedReads(s.q, place, target));
    DropsAreNotDone(s, e, s.q, sweep, Done);
  }

  lemma {:induction false} LaunchedEnds(q: Queue, ids: seq<string>)
    ensures AllLaunched(q, ids).ledger.ended == q.ledger.ended
  {
    if ids != [] { LaunchedEnds(q, ids[..|ids| - 1]); }
  }

  lemma {:induction false} BrokenOffEnds(q: Queue, ids: seq<string>)
    ensures AllBrokenOff(q, ids).ledger.ended == q.ledger.ended
  {
    if ids != [] { BrokenOffEnds(q, ids[..|ids| - 1]); }
  }

  lemma DryRunIsNotDone(s: State, e: Event, kind: Kind, head: string, batch: seq<string>, dues: seq<real>)
    requires Inv(s) && IsBatch(s.q, head, batch, s.now) && |dues| == |batch| && s.q.items[head].dryRun
    ensures NewlyDone(s, e, Settled(AllLaunched(s.q, batch), batch, Ok, RetryLimit(s, kind), dues).ledger.ended)
  {
    var m := AllLaunched(s.q, batch);
    BatchIsPending(s.q, head, batch, s.now);
    BatchStarts(s, head, batch);
    AllLaunchedKeeps(s.q, batch);
    SettledKeeps(m, batch, Ok, RetryLimit(s, kind), dues);
    var r := Settled(m, batch, Ok, RetryLimit(s, kind), dues);
    forall id | id in r.ledger.ended && id !in s.q.ledger.ended ensures !DoneFor(r.ledger.ended[id]) {
      assert SettledItem(m, id, Ok, r);
    }
  }

  lemma StepIsNotDone(s: State, kind: Kind, head: string, choice: Choice)
    requires Inv(s) && EnabledStep(s, kind, head, choice)
    ensures NewlyDone(s, Step(kind, head, choice), Stepped(s, kind, head, choice).q.ledger.ended)
  {
    match choice
    case Expire => FinishedEffect(s.q, s.q.items[head], Expired);
    case Hold(due) =>
    case TooSoon =>
    case RunDry(batch, dues) => DryRunIsNotDone(s, Step(kind, head, choice), kind, head, batch, dues);
    case Run(batch, jitter) => LaunchedEnds(s.q, batch);
  }

  lemma BeginIsNotDone(s: State, kind: Kind, later: real, jitter: real, sweep: seq<string>)
    requires Inv(s) && EnabledBegin(s, kind, later, jitter, sweep)
    ensures NewlyDone(s, Begin(kind, later, jitter, sweep), Begun(s, kind, later, jitter, sweep).q.ledger.ended)
  {
    if kind == React {
      var item := s.q.items[s.pcs[React].batch[0]];
      SweepIsNotDone(s, Begin(kind, later, jitter, sweep), PlaceOf(item), item.msgId, sweep);
    }
  }

  lemma AnswerIsNotDone(s: State, kind: Kind, sweep: seq<string>)
    requires Inv(s) && EnabledWorker(s, ReadDone(kind, sweep))
    ensures NewlyDone(s, ReadDone(kind, sweep), NextWorker(s, ReadDone(kind, sweep)).q.ledger.ended)
  {
    if kind == React {
      SweepIsNotDone(s, ReadDone(kind, sweep), PlaceOf(s.q.items[s.pcs[React].batch[0]]), s.pcs[React].target, sweep);
    }
  }

  lemma SettledItemIsDone(q: Queue, ids: set<string>, verdict: Verdict, r: Queue, id: string)
    requires SettledAll(q, ids, verdict, r)
    requires id in r.ledger.ended && id !in q.ledger.ended && r.ledger.ended[id].outcome == Done
    ensures verdict == Ok && id in ids && id in q.items && r.ledger.ended[id].item == q.items[id]
  {
    assert SettledItem(q, id, verdict, r);
  }

  lemma SettleIsDone(s: State, kind: Kind, verdict: Verdict, dues: seq<real>)
    requires Inv(s) && MaySettle(s, kind, verdict) && |dues| == |s.pcs[kind].Batch()|
    ensures NewlyDone(s, Settle(kind, verdict, dues), SettledQueue(s, kind, verdict, dues).q.ledger.ended)
  {
    SettledQueueEffect(s, kind, verdict, dues);
    BatchIsDone(s, kind, verdict, dues, SettledQueue(s, kind, verdict, dues).q);
  }

  lemma BatchIsDone(s: State, kind: Kind, verdict: Verdict, dues: seq<real>, r: Queue)
    requires kind in s.pcs && MaySettle(s, kind, verdict) && SettledAll(s.q, SetOf(s.pcs[kind].batch), verdict, r)
    ensures NewlyDone(s, Settle(kind, verdict, dues), r.ledger.ended)
  {
    var batch := s.pcs[kind].batch;
    forall id | id in r.ledger.ended && id !in s.q.ledger.ended && DoneFor(r.ledger.ended[id])
      ensures verdict == Ok && id in batch && id in s.q.items && r.ledger.ended[id].item == s.q.items[id]
    {
      SettledItemIsDone(s.q, SetOf(batch), verdict, r, id);
    }
  }

  lemma WaitingIsNotDone(s: State, e: Event)
    requires (e.Wake? || e.ActDone? || e.Break? || e.Stop?) && EnabledWorker(s, e)
    ensures NewlyDone(s, e, NextWorker(s, e).q.ledger.ended)
  {
    if e.Stop? { BrokenOffEnds(s.q, s.pcs[e.kind].batch); }
  }

  lemma WorkerIsDone(s: State, e: Event)
    requires Inv(s) && OfWorker(e) && EnabledWorker(s, e)
    ensures NewlyDone(s, e, NextWorker(s, e).q.ledger.ended)
  {
    if e.Step? { StepIsNotDone(s, e.kind, e.head, e.choice); }
    else if e.Begin? { BeginIsNotDone(s, e.kind, e.later, e.jitter, e.sweep); }
    else if e.ReadDone? { AnswerIsNotDone(s, e.kind, e.sweep); }
    else if e.Settle? { SettleIsDone(s, e.kind, e.verdict, e.dues); }
    else { WaitingIsNotDone(s, e); }
  }

  lemma EventKeepsDone(s: State, e: Event, t: State)
    requires Inv(s) && Takes(s, e, t) && BatchesWentOut(s) && DoneWentOut(s)
    ensures DoneWentOut(t)
  {
    assert NewlyDone(s, e, t.q.ledger.ended) by {
      if OfWorker(e) { WorkerIsDone(s, e); } else { OutsideIsNotDone(s, e); }
    }
    assert Accounts.Final(s.q, t.q) by { Accounts.EventAccounts(s, e, t, ("", 0)); }
    CallsGrow(s, e);
    SettledWentOut(s, e);
    forall id | id in t.q.ledger.ended && DoneFor(t.q.ledger.ended[id])
      ensures WentOut(t.calls, t.q.ledger.ended[id].item)
    {
      StaysOut(s.calls, t.calls, t.q.ledger.ended[id].item);
    }
  }

  /** The items of a batch that is about to be counted done. */
  lemma SettledWentOut(s: State, e: Event)
    requires Inv(s) && BatchesWentOut(s)
    ensures e.Settle? && e.kind in s.pcs && e.kind != Read && s.pcs[e.kind] == Closing(s.pcs[e.kind].Batch(), Ok) ==>
      forall id :: id in s.pcs[e.kind].Batch() ==> id in s.q.items && WentOut(s.calls, s.q.items[id])
    ensures e.Settle? && e.kind in s.pcs ==>
      forall id :: id in s.pcs[e.kind].Batch() ==> id in s.q.items && s.q.items[id].action == e.kind
    ensures e.Settle? && e.kind == Read && Read in s.pcs && s.pcs[Read] == Closing(s.pcs[Read].Batch(), Ok) ==>
      forall id :: id in s.pcs[Read].Batch() ==>
        id in s.q.items && (HasBadge(s.q.items[id]) ==> WentOut(s.calls, s.q.items[id]))
  {
    if e.Settle? && e.kind in s.pcs { assert PcOk(s.q, s.readMarks, s.ownRead, e.kind, s.pcs[e.kind]); }
  }

  lemma {:induction false} RunKeepsRequests(states: seq<State>, events: seq<Event>, n: nat)
    requires IsRun(states, events) && n < |states|
    ensures BatchesWentOut(states[n]) && DoneWentOut(states[n])
  {
    if n > 0 {
      RunKeepsRequests(states, events, n - 1);
      RunEventKeepsRequests(states, events, n);
    }
  }

  lemma RunEventKeepsRequests(states: seq<State>, events: seq<Event>, n: nat)
    requires IsRun(states, events) && 0 < n < |states|
    requires BatchesWentOut(states[n - 1]) && DoneWentOut(states[n - 1])
    ensures BatchesWentOut(states[n]) && DoneWentOut(states[n])
  {
    var s, e, t := states[n - 1], events[n - 1], states[n];
    assert Inv(s) by { RunKeeps(states, events, n - 1); }
    assert Takes(s, e, t) by { RunStep(states, events, n); }
    assert BatchesWentOut(t) by { EventKeepsBatches(s, e, t); }
    assert DoneWentOut(t) by { EventKeepsDone(s, e, t); }
  }

  /** In every run, an item counted done was sent: its reaction, forward or reply, or a view with its id among the
      viewed, went out for just its chat and message. So did a read that was to clear a badge, with that badge in it;
      for what any other read is good for see `Promises.ReactImpliesRead`. */
  lemma DoneWasSent(states: seq<State>, events: seq<Event>, n: nat, id: string)
    requires IsRun(states, events) && n < |states| && id in states[n].q.ledger.ended
    ensures var end := states[n].q.ledger.ended[id];
      end.outcome == Done && !end.item.dryRun
      && (end.item.action == Read ==> end.item.payload.mentions || end.item.payload.reactions) ==>
        WentOut(states[n].calls, end.item)
  {
    RunKeepsRequests(states, events, n);
  }

  // ---- what is started ------------------------------------------------------------------------------

  /** Pending, of the kind, and none of those is due earlier. */
  ghost predicate IsNext(q: Queue, kind: Kind, id: string) {
    && id in q.items && id !in q.running && q.items[id].action == kind
    && forall other :: other in q.items && other !in q.running && q.items[other].action == kind ==>
         q.items[id].dueAt <= q.items[other].dueAt
  }

  /** The event started this execution, and its head was next. */
  ghost predicate StartedBy(s: State, e: Event, st: Startup) {
    && e.Step? && IsNext(s.q, e.kind, e.head)
    && st.at == s.now && st.head == s.q.items[e.head]
    && (e.choice.Run? || e.choice.RunDry?)
    && IsBatch(s.q, e.head, e.choice.batch, s.now) && st.batch == ItemsAt(s.q, e.choice.batch)
  }

  lemma RunStarts(s: State, kind: Kind, head: string, choice: Choice)
    requires EnabledStep(s, kind, head, choice) && (choice.Run? || choice.RunDry?)
    ensures choice.Run? ==> Stepped(s, kind, head, choice).starts == StartsWith(s, head, choice.batch)
    ensures choice.RunDry? ==> Stepped(s, kind, head, choice).starts == StartsWith(s, head, choice.batch)
  {
  }

  lemma PauseStartsNothing(s: State, kind: Kind, head: string, choice: Choice)
    requires EnabledStep(s, kind, head, choice) && !choice.Run? && !choice.RunDry?
    ensures Stepped(s, kind, head, choice).starts == s.starts
  {
  }

  lemma StepStarts(s: State, e: Event, i: nat)
    requires e.Step? && EnabledWorker(s, e) && i < |NextWorker(s, e).starts|
    ensures || (i < |s.starts| && NextWorker(s, e).starts[i] == s.starts[i])
            || StartedBy(s, e, NextWorker(s, e).starts[i])
  {
    if e.choice.Run? || e.choice.RunDry? {
      RunStarts(s, e.kind, e.head, e.choice);
    } else {
      PauseStartsNothing(s, e.kind, e.head, e.choice);
    }
  }

  lemma {:induction false} NotingStartsNothing(s: State, sent: seq<Sent>)
    ensures SentNoted(s, sent).starts == s.starts
  {
    if sent != [] { NotingStartsNothing(s, sent[..|sent| - 1]); }
  }

  lemma AnswerStartsNothing(s: State, e: Event)
    requires (e.ReadDone? || e.Break? || e.Settle? || e.Stop?) && EnabledWorker(s, e)
    ensures NextWorker(s, e).starts == s.starts
  {
  }

  lemma WorkerStartsNothing(s: State, e: Event)
    requires OfWorker(e) && EnabledWorker(s, e) && !e.Step?
    ensures NextWorker(s, e).starts == s.starts
  {
    match e
    case Begin(kind, later, jitter, sweep) => assert Spoken(s, Begun(s, kind, later, jitter, sweep));
    case ActDone(kind, sent) => NotingStartsNothing(s.(pcs := s.pcs[kind := Closing(s.pcs[kind].batch, Ok)]), sent);
    case Wake(kind, later, jitter) =>
    case _ => AnswerStartsNothing(s, e);
  }

  lemma OutsideStartsNothing(s: State, e: Event)
    requires !OfWorker(e)
    ensures NextOutside(s, e).starts == s.starts
  {
  }

  lemma EventStarts(s: State, e: Event, t: State, i: nat)
    requires Takes(s, e, t) && i < |t.starts|
    ensures (i < |s.starts| && t.starts[i] == s.starts[i]) || StartedBy(s, e, t.starts[i])
  {
    if e.Step? { StepStarts(s, e, i); }
    else if OfWorker(e) { WorkerStartsNothing(s, e); }
    else { OutsideStartsNothing(s, e); }
  }

  lemma RunEventStarts(states: seq<State>, events: seq<Event>, k: nat, i: nat)
    requires IsRun(states, events) && k < |events| && i < |states[k + 1].starts|
    ensures || (i < |states[k].starts| && states[k + 1].starts[i] == states[k].starts[i])
            || StartedBy(states[k], events[k], states[k + 1].starts[i])
  {
    var s, e, t := states[k], events[k], states[k + 1];
    assert Takes(s, e, t) by { RunStep(states, events, k + 1); }
    EventStarts(s, e, t, i);
  }

  /** Every execution on record was started by a step of the run, from what `_peek` answers at that moment. */
  lemma {:induction false} StartsAreNextDue(states: seq<State>, events: seq<Event>, n: nat, i: nat) returns (k: nat)
    requires IsRun(states, events) && n < |states| && i < |states[n].starts|
    ensures k < n && StartedBy(states[k], events[k], states[n].starts[i])
  {
    assert n > 0 by { assert states[0].starts == []; }
    k := n - 1;
    RunEventStarts(states, events, k, i);
    if !StartedBy(states[k], events[k], states[n].starts[i]) { k := StartsAreNextDue(states, events, k, i); }
  }
}
