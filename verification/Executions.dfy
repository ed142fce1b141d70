/** One execution, from the step that starts it to the step that ends it: what leaves a running item alone,
    how an execution that puts its item back pays for it, and what becomes of an item cancelled while it runs. */
module Executions {
  import opened Basics
  import opened Items
  import opened Queues
  import opened Store
  import opened Machine
  import opened Safety

  // ---- the events of the others leave a running item alone ------------------------------------

  /** The item runs on, unchanged, and a cancel of it is not lost. */
  ghost predicate Alone(q: Queue, r: Queue, id: string) {
    && id in q.items && id in q.running
    && id in r.items && r.items[id] == q.items[id] && id in r.running
    && (id in q.cancelled ==> id in r.cancelled)
  }

  lemma DropsLeaveAlone(q: Queue, drops: seq<string>, outcome: Outcome, id: string)
    requires QueueInv(q) && Distinct(drops) && SetOf(drops) <= q.items.Keys - q.running
    requires id in q.items && id in q.running
    ensures Alone(q, AllFinished(q, drops, outcome), id)
  {
    AllFinishedKeeps(q, drops, outcome);
    assert id !in SetOf(drops);
  }

  lemma CancelLeavesAlone(q: Queue, sel: Selector, drops: seq<string>, id: string)
    requires QueueInv(q) && Enumerates(drops, ToCancel(q, sel)) && id in q.items && id in q.running
    ensures Alone(q, AllFinished(Doomed(q, ToDoom(q, sel)), drops, Superseded), id)
  {
    var m := Doomed(q, ToDoom(q, sel));
    DoomedKeeps(q, ToDoom(q, sel));
    EnumerationIsSet(drops, ToCancel(q, sel));
    DropsLeaveAlone(m, drops, Superseded, id);
  }

  lemma EditLeavesAlone(q: Queue, item: PendingItem, id: string)
    requires id in q.items && id in q.running && item.id != id
    ensures Alone(q, q, id) && Alone(q, Edited(q, item), id)
  {
  }

  lemma TallyLeavesAlone(q: Queue, slot: Slot, action: Kind, outcome: Outcome, id: string)
    requires id in q.items && id in q.running
    ensures Alone(q, Tallied(q, slot, action, outcome), id)
  {
  }

  /** A submission may move the caption of an album's pending item, and no running one's. */
  lemma SubmitLeavesAlone(s: State, item: PendingItem, album: Option<Album>, hasCaption: bool, id: string)
    requires IdsOk(s.q) && item.id !in s.q.ledger.used && id in s.q.items && id in s.q.running
    ensures Alone(s.q, SubmittedQueue(s, item, album, hasCaption), id)
  {
    match SubmitAnswer(s, item, album)
    case Duplicate =>
    case AlbumMember =>
      var memo := s.albums[album.value];
      if MovesToCaption(s, memo, hasCaption) {
        var m := CaptionMoved(s.q, memo.itemId.value, item.msgId);
        EditLeavesAlone(s.q, s.q.items[memo.itemId.value].(msgId := item.msgId), id);
        TallyLeavesAlone(m, SlotOf(item), item.action, Skipped, id);
      } else {
        TallyLeavesAlone(s.q, SlotOf(item), item.action, Skipped, id);
      }
    case Full => TallyLeavesAlone(s.q, SlotOf(item), item.action, Errors, id);
    case Scheduled => assert id != item.id;
  }

  lemma ResumeLeavesAlone(q: Queue, held: seq<Record>, active: set<string>, id: string)
    requires QueueInv(q) && HeldOk(q, held) && id in q.items && id in q.running
    ensures Alone(q, Resumed(q, held, active), id)
  {
    ResumedKeeps(q, held, active);
    ResumedKeepsCancelled(q, held, active);
  }

  lemma {:induction false} ResumedKeepsCancelled(q: Queue, held: seq<Record>, active: set<string>)
    ensures Resumed(q, held, active).cancelled == q.cancelled
  {
    if held != [] {
      ResumedKeepsCancelled(q, held[..|held| - 1], active);
    }
  }

  lemma OutsideLeavesAlone(s: State, e: Event, id: string)
    requires !OfWorker(e) && Inv(s) && EnabledOutside(s, e) && id in s.q.items && id in s.q.running
    ensures Alone(s.q, NextOutside(s, e).q, id)
  {
    if e.Submit? { SubmitLeavesAlone(s, e.item, e.album, e.hasCaption, id); }
    else if e.CancelItems? || e.ExternalRead? || e.Outgoing? { TakeoverLeavesAlone(s, e, id); }
    else if e.Resume? { ResumeLeavesAlone(s.q, s.held, e.active, id); }
    else { QuietLeavesAlone(s, e, id); }
  }

  lemma QuietLeavesAlone(s: State, e: Event, id: string)
    requires e.Tick? || e.Configure? || e.Close? || e.AlbumRoll? || e.CountOnly? || e.ForgetJob? || e.Preload?
    requires id in s.q.items && id in s.q.running
    ensures Alone(s.q, NextOutside(s, e).q, id)
  {
  }

  lemma TakeoverLeavesAlone(s: State, e: Event, id: string)
    requires Inv(s) && (e.CancelItems? || e.ExternalRead? || e.Outgoing?) && EnabledOutside(s, e)
    requires id in s.q.items && id in s.q.running
    ensures Alone(s.q, NextOutside(s, e).q, id)
  {
    match e
    case CancelItems(sel, drops) => CancelLeavesAlone(s.q, sel, drops, id);
    case ExternalRead(place, maxId, drops) =>
      EnumerationIsSet(drops, ReadTakeover(s, place, maxId));
      DropsLeaveAlone(s.q, drops, Superseded, id);
    case Outgoing(chatId, msgId, drops) =>
      EnumerationIsSet(drops, SendTakeover(s, chatId, msgId));
      DropsLeaveAlone(s.q, drops, Superseded, id);
  }

  lemma OutsideMovesNobody(s: State, e: Event)
    requires !OfWorker(e)
    ensures NextOutside(s, e).pcs == s.pcs
  {
  }

  lemma LaunchLeavesAlone(q: Queue, batch: seq<string>, id: string)
    requires QueueInv(q) && Distinct(batch) && SetOf(batch) <= q.items.Keys - q.running
    requires id in q.items && id in q.running
    ensures Alone(q, AllLaunched(q, batch), id)
  {
    AllLaunchedKeeps(q, batch);
  }

  lemma DryRunLeavesAlone(s: State, kind: Kind, head: string, batch: seq<string>, dues: seq<real>, id: string)
    requires Inv(s) && IsBatch(s.q, head, batch, s.now) && |dues| == |batch| && id in s.q.items && id in s.q.running
    ensures Alone(s.q, Settled(AllLaunched(s.q, batch), batch, Ok, RetryLimit(s, kind), dues), id)
  {
    var m := AllLaunched(s.q, batch);
    BatchIsPending(s.q, head, batch, s.now);
    AllLaunchedKeeps(s.q, batch);
    SettledKeeps(m, batch, Ok, RetryLimit(s, kind), dues);
    assert id !in SetOf(batch);
  }

  lemma StepLeavesAlone(s: State, kind: Kind, head: string, choice: Choice, id: string)
    requires Inv(s) && EnabledWorker(s, Step(kind, head, choice)) && id in s.q.items && id in s.q.running
    ensures Alone(s.q, NextWorker(s, Step(kind, head, choice)).q, id)
  {
    match choice
    case Expire => FinishedEffect(s.q, s.q.items[head], Expired);
    case Hold(due) =>
    case TooSoon =>
    case RunDry(batch, dues) => DryRunLeavesAlone(s, kind, head, batch, dues, id);
    case Run(batch, jitter) =>
      BatchIsPending(s.q, head, batch, s.now);
      LaunchLeavesAlone(s.q, batch, id);
  }

  lemma SweepLeavesAlone(s: State, place: Place, target: int, sweep: seq<string>, id: string)
    requires QueueInv(s.q) && SweepOk(s, place, target, sweep) && id in s.q.items && id in s.q.running
    ensures Alone(s.q, AllFinished(s.q, sweep, Done), id)
  {
    EnumerationIsSet(sweep, SatisfiedReads(s.q, place, target));
    DropsLeaveAlone(s.q, sweep, Done, id);
  }

  lemma SettleLeavesAlone(s: State, kind: Kind, verdict: Verdict, dues: seq<real>, id: string)
    requires Inv(s) && EnabledWorker(s, Settle(kind, verdict, dues))
    requires id in s.q.items && id in s.q.running && s.q.items[id].action != kind
    ensures Alone(s.q, SettledState(s, kind, s.pcs[kind].batch, verdict, dues).q, id)
  {
    SettledQueueEffect(s, kind, verdict, dues);
    assert PcOk(s.q, s.readMarks, s.ownRead, kind, s.pcs[kind]);
    assert id !in SetOf(s.pcs[kind].batch);
  }

  lemma StopLeavesAlone(s: State, kind: Kind, id: string)
    requires Inv(s) && EnabledWorker(s, Stop(kind))
    requires id in s.q.items && id in s.q.running && s.q.items[id].action != kind
    ensures Alone(s.q, AllBrokenOff(s.q, s.pcs[kind].batch), id)
  {
    assert PcOk(s.q, s.readMarks, s.ownRead, kind, s.pcs[kind]);
    AllBrokenOffKeeps(s.q, s.pcs[kind].batch);
    assert id !in SetOf(s.pcs[kind].batch);
  }

  lemma ReactBeginLeavesAlone(s: State, later: real, jitter: real, sweep: seq<string>, id: string)
    requires Inv(s) && EnabledBegin(s, React, later, jitter, sweep) && id in s.q.items && id in s.q.running
    ensures Alone(s.q, Begun(s, React, later, jitter, sweep).q, id)
  {
    var item := s.q.items[s.pcs[React].batch[0]];
    var r := Begun(s, React, later, jitter, sweep).q;
    assert r == s.q || r == AllFinished(s.q, sweep, Done);
    SweepLeavesAlone(s, PlaceOf(item), item.msgId, sweep, id);
  }

  lemma ReplyBeginLeavesAlone(s: State, later: real, jitter: real, sweep: seq<string>, id: string)
    requires Inv(s) && EnabledBegin(s, Reply, later, jitter, sweep)
    requires id in s.q.items && id in s.q.running && s.q.items[id].action != Reply
    ensures Alone(s.q, Begun(s, Reply, later, jitter, sweep).q, id)
  {
    var item := s.q.items[s.pcs[Reply].batch[0]];
    assert item.id != id by { assert PcOk(s.q, s.readMarks, s.ownRead, Reply, s.pcs[Reply]); }
    var r := Begun(s, Reply, later, jitter, sweep).q;
    assert r == s.q || r == Edited(s.q, item.(phase := Send));
    EditLeavesAlone(s.q, item.(phase := Send), id);
  }

  lemma BeginLeavesAlone(s: State, kind: Kind, later: real, jitter: real, sweep: seq<string>, id: string)
    requires Inv(s) && EnabledBegin(s, kind, later, jitter, sweep)
    requires id in s.q.items && id in s.q.running && (s.q.items[id].action != kind || kind != Reply)
    ensures Alone(s.q, Begun(s, kind, later, jitter, sweep).q, id)
  {
    match kind
    case React => ReactBeginLeavesAlone(s, later, jitter, sweep, id);
    case Reply => ReplyBeginLeavesAlone(s, later, jitter, sweep, id);
    case _ =>
  }

  lemma AnswerLeavesAlone(s: State, kind: Kind, sweep: seq<string>, id: string)
    requires QueueInv(s.q) && EnabledWorker(s, ReadDone(kind, sweep)) && id in s.q.items && id in s.q.running
    ensures Alone(s.q, NextWorker(s, ReadDone(kind, sweep)).q, id)
  {
    Safety.AnsweredQueue(s, kind, sweep);
    if kind == React {
      SweepLeavesAlone(s, PlaceOf(s.q.items[s.pcs[React].batch[0]]), s.pcs[React].target, sweep, id);
    }
  }

  lemma WorkerLeavesAlone(s: State, e: Event, id: string)
    requires Inv(s) && OfWorker(e) && EnabledWorker(s, e) && id in s.q.items && id in s.q.running
    requires e.kind != s.q.items[id].action
    ensures Alone(s.q, NextWorker(s, e).q, id)
  {
    if e.Wake? || e.ActDone? || e.Break? {
      assert NextWorker(s, e).q == s.q;
    } else {
      BusyWorkerLeavesAlone(s, e, id);
    }
  }

  lemma BusyWorkerLeavesAlone(s: State, e: Event, id: string)
    requires Inv(s) && (e.Step? || e.Begin? || e.ReadDone? || e.Settle? || e.Stop?) && EnabledWorker(s, e)
    requires id in s.q.items && id in s.q.running && e.kind != s.q.items[id].action
    ensures Alone(s.q, NextWorker(s, e).q, id)
  {
    if e.Step? { StepLeavesAlone(s, e.kind, e.head, e.choice, id); }
    else if e.Settle? || e.Stop? { EndLeavesAlone(s, e, id); }
    else if e.Begin? { BeginLeavesAlone(s, e.kind, e.later, e.jitter, e.sweep, id); }
    else { AnswerLeavesAlone(s, e.kind, e.sweep, id); }
  }

  lemma EndLeavesAlone(s: State, e: Event, id: string)
    requires Inv(s) && (e.Settle? || e.Stop?) && EnabledWorker(s, e)
    requires id in s.q.items && id in s.q.running && e.kind != s.q.items[id].action
    ensures Alone(s.q, NextWorker(s, e).q, id)
  {
    if e.Settle? { SettleLeavesAlone(s, e.kind, e.verdict, e.dues, id); } else { StopLeavesAlone(s, e.kind, id); }
  }

  /** The worker of `kind` is where it was. */
  ghost predicate Unmoved(s: State, t: State, kind: Kind) {
    kind in s.pcs ==> kind in t.pcs && t.pcs[kind] == s.pcs[kind]
  }

  lemma StepMovesItself(s: State, own: Kind, head: string, choice: Choice, kind: Kind)
    requires EnabledStep(s, own, head, choice) && kind != own
    ensures Unmoved(s, Stepped(s, own, head, choice), kind)
  {
  }

  /** An event moves no worker but its own. */
  lemma WorkerMovesItself(s: State, e: Event, kind: Kind)
    requires OfWorker(e) && EnabledWorker(s, e) && kind != e.kind
    ensures Unmoved(s, NextWorker(s, e), kind)
  {
    match e
    case Step(own, head, choice) => StepMovesItself(s, own, head, choice, kind);
    case _ =>
  }

  /** Whatever is not an event of its own worker leaves a running item alone. */
  lemma OthersLeaveAlone(s: State, e: Event, id: string)
    requires Inv(s) && Enabled(s, e) && id in s.q.items && id in s.q.running
    requires OfWorker(e) ==> e.kind != s.q.items[id].action
    ensures Alone(s.q, Next(s, e).q, id)
  {
    if OfWorker(e) { WorkerLeavesAlone(s, e, id); } else { OutsideLeavesAlone(s, e, id); }
  }

  // ---- one execution -----------------------------------------------------------------------------

  /** Between its start and its end an execution of `item` leaves it as it was, but for a reply that has
      shown typing: that is in its second phase, and its worker is about to put it off. */
  ghost predicate Underway(item: PendingItem, s: State) {
    && item.id in s.q.items && item.id in s.q.running
    && item.action in s.pcs && item.id in s.pcs[item.action].Batch()
    && if s.pcs[item.action].PutsOff() then
         item.action == Reply && item.phase == Start && s.q.items[item.id] == item.(phase := Send)
       else s.q.items[item.id] == item
  }

  /** The event ends the execution the worker of `kind` is in. */
  ghost predicate Ends(e: Event, kind: Kind) {
    (e.Settle? || e.Stop?) && e.kind == kind
  }

  lemma StartIsUnderway(s: State, kind: Kind, head: string, batch: seq<string>, jitter: real, id: string)
    requires IdsOk(s.q) && QueueInv(s.q) && EnabledStep(s, kind, head, Run(batch, jitter)) && id in batch
    ensures id in s.q.items && s.q.items[id].action == kind
    ensures Underway(s.q.items[id], Ran(s, kind, head, batch, jitter))
  {
    BatchIsPending(s.q, head, batch, s.now);
    var t := Ran(s, kind, head, batch, jitter);
    assert t.q.items == s.q.items && id in t.q.running by {
      AllLaunchedKeeps(s.q, batch);
      assert id in SetOf(batch);
    }
    assert t.pcs[kind] == Opening(batch);
  }

  lemma BegunProceeds(s: State, kind: Kind, later: real, jitter: real, sweep: seq<string>)
    requires EnabledBegin(s, kind, later, jitter, sweep) && kind != Reply
    ensures Proceeds(Begun(s, kind, later, jitter, sweep), kind, s.pcs[kind].batch)
  {
    var batch := s.pcs[kind].batch;
    var t := Begun(s, kind, later, jitter, sweep);
    match kind
    case React => assert t == ReactBegun(s, batch, s.q.items[batch[0]], later, jitter, sweep);
    case Read => assert t == ReadBegun(s, batch, ItemsAt(s.q, batch));
    case View => assert t == ViewBegun(s, batch, ItemsAt(s.q, batch));
    case Forward =>
  }

  lemma ReplyBegunIs(s: State, later: real, jitter: real, sweep: seq<string>)
    requires EnabledBegin(s, Reply, later, jitter, sweep)
    ensures Begun(s, Reply, later, jitter, sweep)
            == ReplyBegun(s, s.pcs[Reply].batch, s.q.items[s.pcs[Reply].batch[0]])
  {
  }

  lemma TypingIsUnderway(item: PendingItem, s: State, t: State)
    requires Underway(item, s) && item.action == Reply && !s.pcs[Reply].PutsOff() && ShowsTyping(item)
    requires TypesFirst(s, [item.id], item, t)
    ensures Underway(item, t)
  {
  }

  lemma ReplyGoesOn(item: PendingItem, s: State)
    requires Underway(item, s) && item.action == Reply && s.pcs[Reply].Opening? && s.pcs[Reply].batch == [item.id]
    ensures Underway(item, ReplyBegun(s, [item.id], item))
  {
    var t := ReplyBegun(s, [item.id], item);
    if ShowsTyping(item) { TypingIsUnderway(item, s, t); }
    else { assert t.q == s.q && Proceeds(t, Reply, [item.id]); }
  }

  lemma ReplyBeginGoesOn(item: PendingItem, s: State, later: real, jitter: real, sweep: seq<string>)
    requires Inv(s) && EnabledBegin(s, Reply, later, jitter, sweep) && Underway(item, s) && item.action == Reply
    ensures Underway(item, Begun(s, Reply, later, jitter, sweep))
  {
    assert s.pcs[Reply].batch == [item.id] by { assert PcOk(s.q, s.readMarks, s.ownRead, Reply, s.pcs[Reply]); }
    ReplyBegunIs(s, later, jitter, sweep);
    ReplyGoesOn(item, s);
  }

  lemma ProceedingIsUnderway(item: PendingItem, s: State, t: State, kind: Kind)
    requires Underway(item, s) && item.action == kind && !s.pcs[kind].PutsOff()
    requires Alone(s.q, t.q, item.id) && Proceeds(t, kind, s.pcs[kind].Batch())
    ensures Underway(item, t)
  {
  }

  lemma OwnBeginGoesOn(item: PendingItem, s: State, later: real, jitter: real, sweep: seq<string>)
    requires Inv(s) && EnabledBegin(s, item.action, later, jitter, sweep) && Underway(item, s)
    ensures Underway(item, Begun(s, item.action, later, jitter, sweep))
  {
    var kind := item.action;
    if kind == Reply {
      ReplyBeginGoesOn(item, s, later, jitter, sweep);
    } else {
      var t := Begun(s, kind, later, jitter, sweep);
      assert Alone(s.q, t.q, item.id) by { BeginLeavesAlone(s, kind, later, jitter, sweep, item.id); }
      assert Proceeds(t, kind, s.pcs[kind].Batch()) by { BegunProceeds(s, kind, later, jitter, sweep); }
      ProceedingIsUnderway(item, s, t, kind);
    }
  }

  lemma AnsweredProceeds(s: State, kind: Kind, batch: seq<string>, item: PendingItem, target: int, sweep: seq<string>)
    ensures Proceeds(ReadAnswered(s, kind, batch, item, target, sweep), kind, batch)
  {
  }

  lemma OwnReadGoesOn(item: PendingItem, s: State, sweep: seq<string>)
    requires Inv(s) && EnabledWorker(s, ReadDone(item.action, sweep)) && Underway(item, s)
    ensures Underway(item, NextWorker(s, ReadDone(item.action, sweep)))
  {
    var kind, batch := item.action, s.pcs[item.action].batch;
    var t := NextWorker(s, ReadDone(kind, sweep));
    assert Alone(s.q, t.q, item.id) by { AnswerLeavesAlone(s, kind, sweep, item.id); }
    assert Proceeds(t, kind, batch) by {
      AnsweredProceeds(s, kind, batch, s.q.items[batch[0]], s.pcs[kind].target, sweep);
    }
  }

  lemma OwnAnswerGoesOn(item: PendingItem, s: State, e: Event)
    requires EnabledWorker(s, e) && (e.Wake? || e.ActDone? || e.Break?)
    requires e.kind == item.action && Underway(item, s)
    ensures Underway(item, NextWorker(s, e))
  {
    match e
    case Wake(_, _, _) =>
    case ActDone(_, _) =>
    case Break(_, _) =>
  }

  lemma OwnEventGoesOn(item: PendingItem, s: State, e: Event)
    requires Inv(s) && OfWorker(e) && EnabledWorker(s, e) && e.kind == item.action && !Ends(e, item.action)
    requires Underway(item, s)
    ensures Underway(item, NextWorker(s, e))
  {
    if e.Begin? { OwnBeginGoesOn(item, s, e.later, e.jitter, e.sweep); }
    else if e.ReadDone? { OwnReadGoesOn(item, s, e.sweep); }
    else { OwnAnswerGoesOn(item, s, e); }
  }

  /** Until its end, nothing that happens disturbs an execution. */
  lemma ExecutionGoesOn(item: PendingItem, s: State, e: Event)
    requires Inv(s) && Enabled(s, e) && !Ends(e, item.action) && Underway(item, s)
    ensures Underway(item, Next(s, e))
  {
    if OfWorker(e) && e.kind == item.action {
      OwnEventGoesOn(item, s, e);
    } else {
      OthersLeaveAlone(s, e, item.id);
      if OfWorker(e) { WorkerMovesItself(s, e, item.action); } else { OutsideMovesNobody(s, e); }
    }
  }

  // ---- how an execution ends -------------------------------------------------------------------------

  /** An item put back after an execution: the failure is on its account, and it has not used up its retries. */
  ghost predicate PutBack(item: PendingItem, verdict: Verdict, limit: nat, left: PendingItem) {
    && left.(dueAt := item.dueAt) == Hit(item, verdict)
    && match verdict
       case Flood(_) => left.floods <= MAX_FLOOD_RETRIES
       case Transient => left.attempts <= limit
       case Later(at) => left.dueAt == at
       case _ => false
  }

  lemma {:induction false} SettledPutsBack(q: Queue, ids: seq<string>, verdict: Verdict, limit: nat, dues: seq<real>,
                                           id: string)
    requires QueueInv(q) && Distinct(ids) && SetOf(ids) <= q.running && |dues| == |ids|
    requires limit <= PATIENT_RETRIES && id in ids
    requires verdict.Later? ==> forall x :: x in ids ==> x in q.items && Paid(q, q.items[x])
    ensures id in q.items
    ensures var r := Settled(q, ids, verdict, limit, dues);
      id in r.items ==> id !in q.cancelled && PutBack(q.items[id], verdict, limit, r.items[id])
  {
    var n := |ids| - 1;
    var m := Settled(q, ids[..n], verdict, limit, dues[..n]);
    LastIsUntouched(q, ids, verdict, limit, dues);
    if id == ids[n] {
      OnePutsBack(m, id, verdict, limit, dues[n]);
    } else {
      SetOfPrefix(ids);
      SettledPutsBack(q, ids[..n], verdict, limit, dues[..n], id);
      SettledOneStops(m, ids[n], verdict, limit, dues[n]);
    }
  }

  /** The last item of a batch is still as it was when its turn comes. */
  lemma LastIsUntouched(q: Queue, ids: seq<string>, verdict: Verdict, limit: nat, dues: seq<real>)
    requires QueueInv(q) && Distinct(ids) && SetOf(ids) <= q.running && |dues| == |ids| && ids != []
    requires limit <= PATIENT_RETRIES
    requires verdict.Later? ==> forall x :: x in ids ==> x in q.items && Paid(q, q.items[x])
    ensures var n := |ids| - 1;
      var m, last := Settled(q, ids[..n], verdict, limit, dues[..n]), ids[n];
      && last in q.items && last in m.items && m.items[last] == q.items[last] && q.items[last].id == last
      && (last in m.cancelled <==> last in q.cancelled)
  {
    var n := |ids| - 1;
    SetOfPrefix(ids);
    assert ids[n] in SetOf(ids) && ids[n] !in SetOf(ids[..n]);
    SettledKeeps(q, ids[..n], verdict, limit, dues[..n]);
  }

  lemma OnePutsBack(q: Queue, id: string, verdict: Verdict, limit: nat, due: real)
    requires id in q.items && q.items[id].id == id
    ensures var r := SettledOne(q, id, verdict, limit, due);
      id in r.items ==> id !in q.cancelled && PutBack(q.items[id], verdict, limit, r.items[id])
  {
    var hit := Hit(q.items[id], verdict);
    match FateOf(hit, verdict, id in q.cancelled, limit, due)
    case Leaves(outcome) => FinishedEffect(q, hit, outcome);
    case Stays(at) =>
  }

  /** What settling does to one other item, and to the item itself. */
  lemma SettledOneStops(q: Queue, id: string, verdict: Verdict, limit: nat, due: real)
    requires id in q.items && q.items[id].id == id
    ensures forall x :: x != id ==>
      (x in SettledOne(q, id, verdict, limit, due).items <==> x in q.items)
    ensures forall x :: x != id && x in q.items ==> SettledOne(q, id, verdict, limit, due).items[x] == q.items[x]
  {
    var hit := Hit(q.items[id], verdict);
    match FateOf(hit, verdict, id in q.cancelled, limit, due)
    case Leaves(outcome) => FinishedEffect(q, hit, outcome);
    case Stays(at) =>
  }

  lemma BatchMaySettle(s: State, kind: Kind, verdict: Verdict)
    requires PcsOk(s) && MaySettle(s, kind, verdict)
    ensures var batch := s.pcs[kind].batch;
      && Distinct(batch) && SetOf(batch) <= s.q.running
      && (verdict.Later? ==> forall x :: x in batch ==> x in s.q.items && Paid(s.q, s.q.items[x]))
  {
    var batch := s.pcs[kind].batch;
    assert PcOk(s.q, s.readMarks, s.ownRead, kind, s.pcs[kind]);
    if verdict.Later? { assert batch == [batch[0]]; }
  }

  lemma SettlePutsBack(s: State, kind: Kind, verdict: Verdict, dues: seq<real>, id: string)
    requires QueueInv(s.q) && PcsOk(s) && EnabledWorker(s, Settle(kind, verdict, dues)) && id in s.pcs[kind].batch
    ensures id in s.q.items
    ensures var r := Settled(s.q, s.pcs[kind].batch, verdict, RetryLimit(s, kind), dues);
      id in r.items ==> id !in s.q.cancelled && PutBack(s.q.items[id], verdict, RetryLimit(s, kind), r.items[id])
  {
    BatchMaySettle(s, kind, verdict);
    SettledPutsBack(s.q, s.pcs[kind].batch, verdict, RetryLimit(s, kind), dues, id);
  }

  /** What an execution that leaves its item queued has cost it: one more flood, one more attempt, or the one
      change of phase. Floods and attempts stay within their limits, so the budget strictly falls. */
  ghost predicate Costs(item: PendingItem, verdict: Verdict, left: PendingItem) {
    && Budget(left) < Budget(item)
    && match verdict
       case Flood(_) => left.floods == item.floods + 1 <= MAX_FLOOD_RETRIES && left.attempts == item.attempts
       case Transient => left.attempts == item.attempts + 1 <= PATIENT_RETRIES && left.floods == item.floods
       case Later(_) =>
         && item.action == Reply && item.phase == Start && left.phase == Send
         && left.floods == item.floods && left.attempts == item.attempts
       case _ => false
  }

  lemma EndCosts(item: PendingItem, s: State, kind: Kind, verdict: Verdict, dues: seq<real>)
    requires Inv(s) && EnabledWorker(s, Settle(kind, verdict, dues)) && item.action == kind && Underway(item, s)
    ensures var r := SettledState(s, kind, s.pcs[kind].batch, verdict, dues).q;
      item.id in r.items ==> Costs(item, verdict, r.items[item.id])
  {
    SettlePutsBack(s, kind, verdict, dues, item.id);
    var r := SettledState(s, kind, s.pcs[kind].batch, verdict, dues).q;
    if item.id in r.items { BackCosts(item, s, kind, verdict, r.items[item.id]); }
  }

  /** A failure is charged to the item as it was when the execution started; a reply put off has moved on. */
  lemma BackCosts(item: PendingItem, s: State, kind: Kind, verdict: Verdict, left: PendingItem)
    requires kind in s.pcs && MaySettle(s, kind, verdict) && item.action == kind && Underway(item, s)
    requires PutBack(s.q.items[item.id], verdict, RetryLimit(s, kind), left)
    ensures Costs(item, verdict, left)
  {
  }

  // ---- over runs --------------------------------------------------------------------------------------

  /** The execution of an item between event `m`, which starts it, and event `n`, which ends it. */
  ghost predicate IsExecution(states: seq<State>, events: seq<Event>, m: nat, n: nat, id: string)
    requires |states| == |events| + 1
  {
    && m < n < |events|
    && events[m].Step? && events[m].choice.Run? && id in events[m].choice.batch
    && Ends(events[n], events[m].kind)
    && forall k :: m < k < n ==> !Ends(events[k], events[m].kind)
  }

  lemma EventStarts(s: State, e: Event, t: State, id: string)
    requires QueueInv(s.q) && Takes(s, e, t) && e.Step? && e.choice.Run? && id in e.choice.batch
    ensures id in s.q.items && s.q.items[id].id == id && s.q.items[id].action == e.kind
    ensures Underway(s.q.items[id], t)
  {
    StartIsUnderway(s, e.kind, e.head, e.choice.batch, e.choice.jitter, id);
  }

  lemma RunStarts(states: seq<State>, events: seq<Event>, m: nat, id: string)
    requires IsRun(states, events) && m < |events|
    requires events[m].Step? && events[m].choice.Run? && id in events[m].choice.batch
    ensures id in states[m].q.items && states[m].q.items[id].id == id
    ensures states[m].q.items[id].action == events[m].kind
    ensures Underway(states[m].q.items[id], states[m + 1])
  {
    var s, e, t := states[m], events[m], states[m + 1];
    assert Inv(s) by { RunKeeps(states, events, m); }
    assert Takes(s, e, t) by { RunStep(states, events, m + 1); }
    EventStarts(s, e, t, id);
  }

  lemma RunGoesOn(item: PendingItem, states: seq<State>, events: seq<Event>, k: nat)
    requires IsRun(states, events) && k < |events| && !Ends(events[k], item.action) && Underway(item, states[k])
    ensures Underway(item, states[k + 1])
  {
    var s, e := states[k], events[k];
    assert Inv(s) by { RunKeeps(states, events, k); }
    assert Takes(s, e, states[k + 1]) by { RunStep(states, events, k + 1); }
    ExecutionGoesOn(item, s, e);
  }

  lemma {:induction false} RunStaysUnderway(states: seq<State>, events: seq<Event>, m: nat, n: nat, id: string)
    requires IsRun(states, events) && m < n < |states|
    requires events[m].Step? && events[m].choice.Run? && id in events[m].choice.batch
    requires forall k :: m < k < n ==> !Ends(events[k], events[m].kind)
    ensures id in states[m].q.items && states[m].q.items[id].id == id
    ensures states[m].q.items[id].action == events[m].kind
    ensures Underway(states[m].q.items[id], states[n])
  {
    RunStarts(states, events, m, id);
    if n > m + 1 {
      RunStaysUnderway(states, events, m, n - 1, id);
      RunGoesOn(states[m].q.items[id], states, events, n - 1);
    }
  }

  /** The termination measure: in every run, an execution that ends and leaves its item queued has raised its
      floods (to at most ten), raised its attempts (to at most twelve) or moved a reply from its first phase to
      its second, counted from when the execution started. */
  lemma ExecutionCosts(states: seq<State>, events: seq<Event>, m: nat, n: nat, id: string)
    requires IsRun(states, events) && IsExecution(states, events, m, n, id) && events[n].Settle?
    requires id in states[n + 1].q.items
    ensures id in states[m].q.items && Costs(states[m].q.items[id], events[n].verdict, states[n + 1].q.items[id])
  {
    RunStaysUnderway(states, events, m, n, id);
    var item, s, e := states[m].q.items[id], states[n], events[n];
    assert Inv(s) by { RunKeeps(states, events, n); }
    assert Takes(s, e, states[n + 1]) by { RunStep(states, events, n + 1); }
    EndCosts(item, s, e.kind, e.verdict, e.dues);
  }

  // ---- cancelled while it runs ------------------------------------------------------------------------

  /** An item of the kind that is running, and is to leave when its execution ends. */
  predicate IsDoomed(q: Queue, kind: Kind, id: string) {
    id in q.items && q.items[id].action == kind && id in q.running && id in q.cancelled
  }

  lemma ReplyBeginKeepsDoomed(s: State, later: real, jitter: real, sweep: seq<string>, id: string)
    requires IdsOk(s.q) && EnabledBegin(s, Reply, later, jitter, sweep) && IsDoomed(s.q, Reply, id)
    ensures IsDoomed(Begun(s, Reply, later, jitter, sweep).q, Reply, id)
  {
  }

  lemma OwnEventKeepsDoomed(s: State, e: Event, id: string)
    requires Inv(s) && OfWorker(e) && EnabledWorker(s, e) && IsDoomed(s.q, e.kind, id) && !Ends(e, e.kind)
    ensures IsDoomed(NextWorker(s, e).q, e.kind, id)
  {
    match e
    case Begin(kind, later, jitter, sweep) =>
      if kind == Reply { ReplyBeginKeepsDoomed(s, later, jitter, sweep, id); }
      else { BeginLeavesAlone(s, kind, later, jitter, sweep, id); }
    case ReadDone(kind, sweep) => AnswerLeavesAlone(s, kind, sweep, id);
    case _ =>
  }

  /** How the execution of a cancelled item comes to its end. */
  ghost predicate LeavesSuperseded(q: Queue, id: string) {
    id !in q.items && id in q.ledger.ended && q.ledger.ended[id].outcome == Superseded
  }

  ghost predicate IsPutBack(q: Queue, id: string, r: Queue) {
    id in q.items && id in r.items && r.items[id] == q.items[id] && id !in r.running && id in r.cancelled
  }

  lemma SettleEndsDoomed(s: State, kind: Kind, verdict: Verdict, dues: seq<real>, id: string)
    requires Inv(s) && EnabledWorker(s, Settle(kind, verdict, dues)) && IsDoomed(s.q, kind, id)
    ensures LeavesSuperseded(SettledState(s, kind, s.pcs[kind].batch, verdict, dues).q, id)
  {
    SettledQueueEffect(s, kind, verdict, dues);
    assert SettledItem(s.q, id, verdict, SettledState(s, kind, s.pcs[kind].batch, verdict, dues).q);
  }

  lemma StopKeepsDoomed(s: State, kind: Kind, id: string)
    requires Inv(s) && EnabledWorker(s, Stop(kind)) && IsDoomed(s.q, kind, id)
    ensures IsPutBack(s.q, id, AllBrokenOff(s.q, s.pcs[kind].batch))
  {
    assert PcOk(s.q, s.readMarks, s.ownRead, kind, s.pcs[kind]);
    AllBrokenOffKeeps(s.q, s.pcs[kind].batch);
  }

  lemma DoomedGoesOn(s: State, e: Event, kind: Kind, id: string)
    requires Inv(s) && Enabled(s, e) && IsDoomed(s.q, kind, id) && !Ends(e, kind)
    ensures IsDoomed(Next(s, e).q, kind, id)
  {
    if OfWorker(e) && e.kind == kind { OwnEventKeepsDoomed(s, e, id); }
    else { assert Alone(s.q, Next(s, e).q, id) by { OthersLeaveAlone(s, e, id); } }
  }

  /** An item cancelled or forgotten while it runs leaves, as superseded, exactly when its execution is settled.
      A stop puts it back instead: it is pending again, with its mark. On every other event it runs on, to leave. */
  lemma CancelledLeavesBySettling(s: State, e: Event, kind: Kind, id: string)
    requires Inv(s) && Enabled(s, e) && IsDoomed(s.q, kind, id)
    ensures id !in Next(s, e).q.items <==> e.Settle? && e.kind == kind
    ensures id !in Next(s, e).q.items ==> LeavesSuperseded(Next(s, e).q, id)
    ensures IsPutBack(s.q, id, Next(s, e).q) <==> e.Stop? && e.kind == kind
    ensures !Ends(e, kind) ==> IsDoomed(Next(s, e).q, kind, id)
  {
    if !Ends(e, kind) { DoomedGoesOn(s, e, kind, id); }
    else if e.Settle? { SettleEndsDoomed(s, kind, e.verdict, e.dues, id); }
    else { StopKeepsDoomed(s, kind, id); }
  }

  lemma RunKeepsDoomed(states: seq<State>, events: seq<Event>, k: nat, kind: Kind, id: string)
    requires IsRun(states, events) && k < |events| && IsDoomed(states[k].q, kind, id)
    ensures !Ends(events[k], kind) ==> IsDoomed(states[k + 1].q, kind, id)
    ensures events[k].Settle? && events[k].kind == kind ==> LeavesSuperseded(states[k + 1].q, id)
    ensures events[k].Stop? && events[k].kind == kind ==> IsPutBack(states[k].q, id, states[k + 1].q)
  {
    var s, e := states[k], events[k];
    assert Inv(s) by { RunKeeps(states, events, k); }
    assert Takes(s, e, states[k + 1]) by { RunStep(states, events, k + 1); }
    CancelledLeavesBySettling(s, e, kind, id);
  }

  /** Over a whole run: from the moment an item is cancelled while it runs, whatever else happens, it runs on to the
      event that ends its execution; settled it leaves as superseded, and only by a stop is it put back. */
  lemma {:induction false} CancelledRunsToItsEnd(states: seq<State>, events: seq<Event>, m: nat, n: nat,
                                                 kind: Kind, id: string)
    requires IsRun(states, events) && m <= n < |events| && IsDoomed(states[m].q, kind, id)
    requires forall k :: m <= k < n ==> !Ends(events[k], kind)
    ensures IsDoomed(states[n].q, kind, id)
    ensures Ends(events[n], kind) ==>
      if events[n].Settle? then LeavesSuperseded(states[n + 1].q, id)
      else IsPutBack(states[n].q, id, states[n + 1].q)
  {
    if m < n {
      CancelledRunsToItsEnd(states, events, m, n - 1, kind, id);
      RunKeepsDoomed(states, events, n - 1, kind, id);
    }
    RunKeepsDoomed(states, events, n, kind, id);
  }
}
