/** What each stretch of a worker does, by kind and written out: what goes out, where the worker is then, what is on
    record of it; and that a pending item which an event is not about stays as it is. */
module Stretches {
  import opened Basics
  import opened Items
  import opened Queues
  import opened Machine
  import opened Safety
  import Pacing
  import opened Store
  import Deliveries
  import Guards
  import Commands
  import Promises

  // ---- the first stretch of an action -------------------------------------------------------------------

  /** One request goes out, and the worker waits for its answer. */
  ghost predicate Requests(s: State, kind: Kind, op: Op, items: seq<PendingItem>, pc: Pc, t: State) {
    t.calls == s.calls + [Call(op, items)] && kind in t.pcs && t.pcs[kind] == pc
  }

  ghost predicate SendsNothing(s: State, kind: Kind, pc: Pc, t: State) {
    t.calls == s.calls && kind in t.pcs && t.pcs[kind] == pc
  }

  /** With the read pacer open the chat is read up to the message, no badge cleared; otherwise the reaction sleeps. */
  ghost predicate ReadsFirst(s: State, item: PendingItem, t: State)
    requires Read in s.pacers
  {
    if Pacing.OpenBy(Pacing.Looked(s.pacers[Read], s.now), s.now) then
      Requests(s, React, ReadOp((item.chatId, item.topicId), item.msgId, false, false), [item],
               Reading([item.id], item.msgId), t)
    else SendsNothing(s, React, Pc.Pacing([item.id]), t)
  }

  /** A reaction goes out once its chat is read up to the message; before that comes the read. */
  ghost predicate Reacts(s: State, item: PendingItem, t: State)
    requires Read in s.pacers
  {
    var mark := Get(s.readMarks, (item.chatId, item.topicId), 0);
    if mark >= item.msgId then
      Requests(s, React, ReactionOp((item.chatId, item.topicId), item.msgId, mark), [item], Acting([item.id]), t)
    else ReadsFirst(s, item, t)
  }

  predicate IsLatest(items: seq<PendingItem>, msgId: int) {
    (exists i :: 0 <= i < |items| && items[i].msgId == msgId)
    && forall i :: 0 <= i < |items| ==> items[i].msgId <= msgId
  }

  predicate WantsMentions(items: seq<PendingItem>) {
    exists i :: 0 <= i < |items| && items[i].payload.mentions
  }

  predicate WantsReactions(items: seq<PendingItem>) {
    exists i :: 0 <= i < |items| && items[i].payload.reactions
  }

  /** A batch of reads is one read up to its latest message, and clears the badges its items want cleared; with nothing
      to clear and all of it read it sends nothing and is done. */
  ghost predicate Reads(s: State, batch: seq<string>, items: seq<PendingItem>, t: State)
    requires items != []
  {
    t.q == s.q && exists upTo :: IsLatest(items, upTo) && ReadsUpTo(s, batch, items, upTo, t)
  }

  ghost predicate ReadsUpTo(s: State, batch: seq<string>, items: seq<PendingItem>, upTo: int, t: State)
    requires items != []
  {
    var place := (items[0].chatId, items[0].topicId);
    if upTo > Get(s.readMarks, place, 0) || WantsMentions(items) || WantsReactions(items) then
      Requests(s, Read, ReadOp(place, upTo, WantsMentions(items), WantsReactions(items)), items,
               Reading(batch, upTo), t)
    else SendsNothing(s, Read, Closing(batch, Ok), t)
  }

  /** A batch of views is one request that names just their messages. */
  ghost predicate Views(s: State, batch: seq<string>, items: seq<PendingItem>, t: State)
    requires items != []
  {
    t.q == s.q
    && Requests(s, View,
                ViewOp(items[0].chatId, items[0].payload.mode, set i | 0 <= i < |items| :: items[i].msgId),
                items, Acting(batch), t)
  }

  ghost predicate Forwards(s: State, item: PendingItem, t: State) {
    t.q == s.q && Requests(s, Forward, ForwardOp(item.chatId, item.msgId, item.payload.to), [item], Acting([item.id]), t)
  }

  /** By kind. What a reply does is `Outcomes.RepliesTypeFirst`. */
  ghost predicate Opens(s: State, kind: Kind, t: State) {
    BatchLive(s, kind)
    && var batch := s.pcs[kind].Batch(); var items := ItemsAt(s.q, batch);
       match kind
       case React => Reacts(s, items[0], t)
       case Read => Reads(s, batch, items, t)
       case View => Views(s, batch, items, t)
       case Forward => Forwards(s, items[0], t)
       case Reply => true
  }

  lemma PacedReads(s: State, item: PendingItem, later: real, jitter: real)
    requires PacersOk(s)
    ensures ReadsFirst(s, item, ReadPaced(s, [item.id], item, later, jitter))
  {
    Guards.OpenWhenNoWait(s.pacers[Read], s.now);
  }

  lemma ReactOpens(s: State, item: PendingItem, later: real, jitter: real, sweep: seq<string>)
    requires PacersOk(s)
    ensures Reacts(s, item, ReactBegun(s, [item.id], item, later, jitter, sweep))
  {
    if Get(s.readMarks, PlaceOf(item), 0) < item.msgId { PacedReads(s, item, later, jitter); }
    else { ReactionGoesOut(s, item, sweep); }
  }

  lemma ReactionGoesOut(s: State, item: PendingItem, sweep: seq<string>)
    ensures Requests(s, React, ReactionOp(PlaceOf(item), item.msgId, Get(s.readMarks, PlaceOf(item), 0)), [item],
                     Acting([item.id]), ReactIssued(s, [item.id], item, sweep))
  {
  }

  lemma ReadGoesOut(s: State, kind: Kind, batch: seq<string>, place: Place, target: int, items: seq<PendingItem>)
    ensures Requests(s, kind, ReadFor(kind, place, target, items), items, Reading(batch, target),
                     ReadIssued(s, kind, batch, place, target, items))
  {
  }

  lemma BadgesWanted(items: seq<PendingItem>)
    ensures WantsMentions(items) <==> AnyMention(items)
    ensures WantsReactions(items) <==> AnyReaction(items)
  {
  }

  lemma ReadOpens(s: State, batch: seq<string>, items: seq<PendingItem>)
    requires items != []
    ensures Reads(s, batch, items, ReadBegun(s, batch, items))
  {
    assert IsLatest(items, Highest(items)) by { HighestBounds(items); }
    assert ReadsUpTo(s, batch, items, Highest(items), ReadBegun(s, batch, items)) by {
      BadgesWanted(items);
      ReadGoesOut(s, Read, batch, PlaceOf(items[0]), Highest(items), items);
    }
  }

  lemma ViewOpens(s: State, batch: seq<string>, items: seq<PendingItem>)
    requires 0 < |items| <= 100
    ensures Views(s, batch, items, ViewBegun(s, batch, items))
  {
    IdsAreFew(items);
  }

  lemma AloneOpens(s: State, kind: Kind)
    requires PcsOk(s) && IdsOk(s.q) && BatchLive(s, kind) && kind in {React, Forward, Reply}
    ensures ItemsAt(s.q, s.pcs[kind].Batch()) == [s.q.items[s.pcs[kind].batch[0]]]
    ensures s.pcs[kind].batch == [s.q.items[s.pcs[kind].batch[0]].id]
  {
    Deliveries.BatchIsOne(s, kind);
  }

  lemma BeginOpens(s: State, kind: Kind, later: real, jitter: real, sweep: seq<string>)
    requires PcsOk(s) && PacersOk(s) && IdsOk(s.q) && EnabledBegin(s, kind, later, jitter, sweep)
    ensures Opens(s, kind, NextWorker(s, Begin(kind, later, jitter, sweep)))
  {
    match kind
    case React => ReactBeginOpens(s, later, jitter, sweep);
    case Read => ReadOpens(s, s.pcs[Read].batch, ItemsAt(s.q, s.pcs[Read].batch));
    case View => ViewBeginOpens(s, later, jitter, sweep);
    case Forward => AloneOpens(s, Forward);
    case Reply =>
  }

  lemma ViewBeginOpens(s: State, later: real, jitter: real, sweep: seq<string>)
    requires PcsOk(s) && EnabledBegin(s, View, later, jitter, sweep)
    ensures Opens(s, View, NextWorker(s, Begin(View, later, jitter, sweep)))
  {
    assert |s.pcs[View].batch| <= 100 by { assert PcOk(s.q, s.readMarks, s.ownRead, View, s.pcs[View]); }
    ViewOpens(s, s.pcs[View].batch, ItemsAt(s.q, s.pcs[View].batch));
  }

  lemma ReactBeginOpens(s: State, later: real, jitter: real, sweep: seq<string>)
    requires PcsOk(s) && PacersOk(s) && IdsOk(s.q) && EnabledBegin(s, React, later, jitter, sweep)
    ensures Opens(s, React, NextWorker(s, Begin(React, later, jitter, sweep)))
  {
    AloneOpens(s, React);
    ReactOpens(s, s.q.items[s.pcs[React].batch[0]], later, jitter, sweep);
  }

  /** In every run: the first request of every execution, and when there is none. */
  lemma ExecutionsOpen(states: seq<State>, events: seq<Event>, n: nat)
    requires IsRun(states, events) && n < |events| && events[n].Begin?
    ensures Opens(states[n], events[n].kind, states[n + 1])
  {
    var s, e, t := states[n], events[n], states[n + 1];
    assert Inv(s) by { RunKeeps(states, events, n); }
    assert Takes(s, e, t) by { RunStep(states, events, n + 1); }
    BeginOpens(s, e.kind, e.later, e.jitter, e.sweep);
  }

  /** In every run: a reaction that slept for the read pacer asks it again. */
  lemma SleepersAskAgain(states: seq<State>, events: seq<Event>, n: nat)
    requires IsRun(states, events) && n < |events| && events[n].Wake?
    ensures BatchLive(states[n], React)
    ensures ReadsFirst(states[n], states[n].q.items[states[n].pcs[React].batch[0]], states[n + 1])
    ensures states[n + 1].q == states[n].q
  {
    var s, e, t := states[n], events[n], states[n + 1];
    assert Inv(s) by { RunKeeps(states, events, n); }
    assert Takes(s, e, t) by { RunStep(states, events, n + 1); }
    AloneOpens(s, React);
    PacedReads(s, s.q.items[s.pcs[React].batch[0]], e.later, e.jitter);
  }

  // ---- what a step starts ---------------------------------------------------------------------------------

  /** The executions on record: one more with every batch that is run, also of a dry run, and no other. */
  ghost predicate Records(s: State, e: Event, t: State) {
    if e.Step? && (e.choice.Run? || e.choice.RunDry?) then
      && e.head in s.q.items && (forall id :: id in e.choice.batch ==> id in s.q.items)
      && t.starts == s.starts + [Startup(s.now, s.q.items[e.head], ItemsAt(s.q, e.choice.batch))]
    else t.starts == s.starts
  }

  /** A batch that is run is running, each item as it was, its worker about to begin. */
  ghost predicate Launches(s: State, kind: Kind, batch: seq<string>, t: State) {
    && t.q.items == s.q.items
    && (forall id :: id in t.q.running <==> id in s.q.running || id in batch)
    && kind in t.pcs && t.pcs[kind] == Opening(batch)
  }

  lemma StepRecords(s: State, kind: Kind, head: string, choice: Choice)
    requires EnabledStep(s, kind, head, choice)
    ensures Records(s, Step(kind, head, choice), Stepped(s, kind, head, choice))
  {
  }

  lemma EventRecords(s: State, e: Event, t: State)
    requires Takes(s, e, t)
    ensures Records(s, e, t)
  {
    if !OfWorker(e) { Deliveries.OutsideStartsNothing(s, e); }
    else if e.Step? { StepRecords(s, e.kind, e.head, e.choice); }
    else { Deliveries.WorkerStartsNothing(s, e); }
  }

  lemma RunLaunches(s: State, kind: Kind, head: string, batch: seq<string>, jitter: real)
    requires QueueInv(s.q) && EnabledStep(s, kind, head, Choice.Run(batch, jitter))
    ensures Launches(s, kind, batch, Stepped(s, kind, head, Choice.Run(batch, jitter)))
  {
    BatchIsPending(s.q, head, batch, s.now);
    AllLaunchedKeeps(s.q, batch);
  }

  /** In every run: each execution is on record from its start, and then its items are running. */
  lemma ExecutionsAreRecorded(states: seq<State>, events: seq<Event>, n: nat)
    requires IsRun(states, events) && n < |events|
    ensures Records(states[n], events[n], states[n + 1])
    ensures events[n].Step? && events[n].choice.Run? ==>
      Launches(states[n], events[n].kind, events[n].choice.batch, states[n + 1])
  {
    var s, e, t := states[n], events[n], states[n + 1];
    assert Takes(s, e, t) by { RunStep(states, events, n + 1); }
    EventRecords(s, e, t);
    if e.Step? && e.choice.Run? {
      assert QueueInv(s.q) by { RunKeeps(states, events, n); }
      RunLaunches(s, e.kind, e.head, e.choice.batch, e.choice.jitter);
    }
  }

  // ---- what an event is not about ---------------------------------------------------------------------------

  /** The pending items an event is about. */
  ghost predicate Concerns(s: State, e: Event, id: string) {
    match e
    case Step(_, head, choice) =>
      if choice.Run? || choice.RunDry? then id in choice.batch else id == head && !choice.TooSoon?
    case Begin(kind, _, _, sweep) => kind == React && id in sweep
    case ReadDone(kind, sweep) => kind == React && id in sweep
    case Submit(_, album, _) => album.Some? && album.value in s.albums && s.albums[album.value].itemId == Some(id)
    case CancelItems(_, drops) => id in drops
    case ExternalRead(_, _, drops) => id in drops
    case Outgoing(_, _, drops) => id in drops
    case ForgetJob(job) => id in s.q.items && s.q.items[id].job == job
    case _ => false
  }

  /** Pending before and after, and in nothing changed. */
  ghost predicate Rests(q: Queue, id: string, r: Queue) {
    id in q.items && id !in q.running && id in r.items && id !in r.running && r.items[id] == q.items[id]
  }

  lemma DropsLetRest(q: Queue, drops: seq<string>, outcome: Outcome, id: string)
    requires QueueInv(q) && Distinct(drops) && SetOf(drops) <= q.items.Keys - q.running
    requires id in q.items && id !in q.running && id !in drops
    ensures Rests(q, id, AllFinished(q, drops, outcome))
  {
    AllFinishedKeeps(q, drops, outcome);
  }

  lemma ListedLetRest(q: Queue, listed: set<string>, drops: seq<string>, outcome: Outcome, id: string)
    requires QueueInv(q) && Enumerates(drops, listed) && listed <= q.items.Keys - q.running
    requires id in q.items && id !in q.running && id !in drops
    ensures Rests(q, id, AllFinished(q, drops, outcome))
  {
    EnumerationIsSet(drops, listed);
    DropsLetRest(q, drops, outcome, id);
  }

  lemma CancelLetsRest(q: Queue, sel: Selector, drops: seq<string>, id: string)
    requires QueueInv(q) && Enumerates(drops, ToCancel(q, sel)) && id in q.items && id !in q.running && id !in drops
    ensures Rests(q, id, AllFinished(Doomed(q, ToDoom(q, sel)), drops, Superseded))
  {
    DoomedKeeps(q, ToDoom(q, sel));
    ListedLetRest(Doomed(q, ToDoom(q, sel)), ToCancel(q, sel), drops, Superseded, id);
  }

  lemma TallyLetsRest(q: Queue, slot: Slot, action: Kind, outcome: Outcome, id: string)
    requires id in q.items && id !in q.running
    ensures Rests(q, id, Tallied(q, slot, action, outcome))
  {
  }

  lemma EditLetsRest(q: Queue, item: PendingItem, id: string)
    requires id in q.items && id !in q.running && item.id != id
    ensures Rests(q, id, Edited(q, item))
  {
  }

  lemma FinishLetsRest(q: Queue, item: PendingItem, outcome: Outcome, id: string)
    requires id in q.items && id !in q.running && item.id != id
    ensures Rests(q, id, Finished(q, item, outcome))
  {
    FinishedEffect(q, item, outcome);
  }

  lemma CaptionLetsRest(s: State, item: PendingItem, album: Album, hasCaption: bool, id: string)
    requires IdsOk(s.q) && album in s.albums && id in s.q.items && id !in s.q.running
    requires s.albums[album].itemId != Some(id) && MovesToCaption(s, s.albums[album], hasCaption)
    ensures Rests(s.q, id, JoinedAlbum(s, item, album, hasCaption).q)
  {
    var moved := s.albums[album].itemId.value;
    assert s.q.items[moved].id == moved;
    Commands.TallyKeepsItems(CaptionMoved(s.q, moved, item.msgId), SlotOf(item), item.action, Skipped);
  }

  lemma MemberLetsRest(s: State, item: PendingItem, album: Album, hasCaption: bool, id: string)
    requires album in s.albums && id in s.q.items && id !in s.q.running
    requires !MovesToCaption(s, s.albums[album], hasCaption)
    ensures Rests(s.q, id, JoinedAlbum(s, item, album, hasCaption).q)
  {
    Commands.TallyKeepsItems(s.q, SlotOf(item), item.action, Skipped);
  }

  lemma SubmitLetsRest(s: State, item: PendingItem, album: Option<Album>, hasCaption: bool, id: string)
    requires IdsOk(s.q) && item.id !in s.q.ledger.used && id in s.q.items && id !in s.q.running
    requires album.Some? && album.value in s.albums ==> s.albums[album.value].itemId != Some(id)
    ensures Rests(s.q, id, Submitted(s, item, album, hasCaption).q)
  {
    SubmittedByAnswer(s, item, album, hasCaption);
    match SubmitAnswer(s, item, album)
    case Duplicate =>
    case AlbumMember =>
      if MovesToCaption(s, s.albums[album.value], hasCaption) { CaptionLetsRest(s, item, album.value, hasCaption, id); }
      else { MemberLetsRest(s, item, album.value, hasCaption, id); }
    case Full => TallyLetsRest(s.q, SlotOf(item), item.action, Errors, id);
    case Scheduled => assert id != item.id;
  }

  lemma OutsideLetsRest(s: State, e: Event, id: string)
    requires !OfWorker(e) && Inv(s) && EnabledOutside(s, e)
    requires id in s.q.items && id !in s.q.running && !Concerns(s, e, id)
    ensures Rests(s.q, id, NextOutside(s, e).q)
  {
    match e
    case Submit(item, album, hasCaption) => SubmitLetsRest(s, item, album, hasCaption, id);
    case CancelItems(sel, drops) => CancelLetsRest(s.q, sel, drops, id);
    case ExternalRead(place, maxId, drops) =>
      ListedLetRest(s.q, ReadTakeover(s, place, maxId), drops, Superseded, id);
    case Outgoing(chatId, msgId, drops) =>
      ListedLetRest(s.q, SendTakeover(s, chatId, msgId), drops, Superseded, id);
    case Resume(active) => ResumedKeeps(s.q, s.held, active);
    case CountOnly(slot, action, outcome) => TallyLetsRest(s.q, slot, action, outcome, id);
    case _ =>
  }

  lemma DryRunLetsRest(s: State, kind: Kind, head: string, batch: seq<string>, dues: seq<real>, id: string)
    requires QueueInv(s.q) && IsBatch(s.q, head, batch, s.now) && |dues| == |batch|
    requires id in s.q.items && id !in s.q.running && id !in batch
    ensures Rests(s.q, id, Settled(AllLaunched(s.q, batch), batch, Ok, RetryLimit(s, kind), dues))
  {
    BatchIsPending(s.q, head, batch, s.now);
    AllLaunchedKeeps(s.q, batch);
    SettledKeeps(AllLaunched(s.q, batch), batch, Ok, RetryLimit(s, kind), dues);
  }

  lemma LaunchLetsRest(s: State, head: string, batch: seq<string>, id: string)
    requires QueueInv(s.q) && IsBatch(s.q, head, batch, s.now) && id in s.q.items && id !in s.q.running && id !in batch
    ensures Rests(s.q, id, AllLaunched(s.q, batch))
  {
    BatchIsPending(s.q, head, batch, s.now);
    AllLaunchedKeeps(s.q, batch);
  }

  lemma StepLetsRest(s: State, kind: Kind, head: string, choice: Choice, id: string)
    requires QueueInv(s.q) && EnabledStep(s, kind, head, choice)
    requires id in s.q.items && id !in s.q.running && !Concerns(s, Step(kind, head, choice), id)
    ensures Rests(s.q, id, Stepped(s, kind, head, choice).q)
  {
    match choice
    case Expire => FinishLetsRest(s.q, s.q.items[head], Expired, id);
    case Hold(due) => EditLetsRest(s.q, s.q.items[head].(dueAt := due), id);
    case TooSoon =>
    case RunDry(batch, dues) => DryRunLetsRest(s, kind, head, batch, dues, id);
    case Run(batch, jitter) => LaunchLetsRest(s, head, batch, id);
  }

  lemma BeginLetsRest(s: State, kind: Kind, later: real, jitter: real, sweep: seq<string>, id: string)
    requires Inv(s) && EnabledBegin(s, kind, later, jitter, sweep)
    requires id in s.q.items && id !in s.q.running && (kind == React ==> id !in sweep)
    ensures Rests(s.q, id, Begun(s, kind, later, jitter, sweep).q)
  {
    var item := s.q.items[s.pcs[kind].batch[0]];
    if kind == React { ListedLetRest(s.q, SatisfiedReads(s.q, PlaceOf(item), item.msgId), sweep, Done, id); }
    if kind == Reply { AloneOpens(s, Reply); Deliveries.BatchIsOne(s, Reply); }
  }

  lemma AnswerLetsRest(s: State, kind: Kind, sweep: seq<string>, id: string)
    requires QueueInv(s.q) && EnabledWorker(s, ReadDone(kind, sweep))
    requires id in s.q.items && id !in s.q.running && (kind == React ==> id !in sweep)
    ensures Rests(s.q, id, NextWorker(s, ReadDone(kind, sweep)).q)
  {
    AnsweredQueue(s, kind, sweep);
    if kind == React {
      var place := PlaceOf(s.q.items[s.pcs[React].batch[0]]);
      ListedLetRest(s.q, SatisfiedReads(s.q, place, s.pcs[React].target), sweep, Done, id);
    }
  }

  lemma EndLetsRest(s: State, e: Event, id: string)
    requires Inv(s) && (e.Settle? || e.Stop?) && EnabledWorker(s, e) && id in s.q.items && id !in s.q.running
    ensures Rests(s.q, id, NextWorker(s, e).q)
  {
    assert SetOf(s.pcs[e.kind].batch) <= s.q.running && Distinct(s.pcs[e.kind].batch) by {
      assert PcOk(s.q, s.readMarks, s.ownRead, e.kind, s.pcs[e.kind]);
    }
    if e.Settle? { SettledQueueEffect(s, e.kind, e.verdict, e.dues); }
    else { AllBrokenOffKeeps(s.q, s.pcs[e.kind].batch); }
  }

  lemma WorkerLetsRest(s: State, e: Event, id: string)
    requires OfWorker(e) && Inv(s) && EnabledWorker(s, e) && id in s.q.items && id !in s.q.running && !Concerns(s, e, id)
    ensures Rests(s.q, id, NextWorker(s, e).q)
  {
    if e.Step? { StepLetsRest(s, e.kind, e.head, e.choice, id); }
    else if e.Begin? { BeginLetsRest(s, e.kind, e.later, e.jitter, e.sweep, id); }
    else if e.ReadDone? { AnswerLetsRest(s, e.kind, e.sweep, id); }
    else if e.Settle? || e.Stop? { EndLetsRest(s, e, id); }
    else { assert NextWorker(s, e).q == s.q; }
  }

  /** In every run a pending item that an event is not about rests: nothing of it changes. Of a running one
      `Executions.OthersLeaveAlone` says the same. */
  lemma OthersRest(states: seq<State>, events: seq<Event>, n: nat, id: string)
    requires IsRun(states, events) && n < |events| && id in states[n].q.items && id !in states[n].q.running
    requires !Concerns(states[n], events[n], id)
    ensures Rests(states[n].q, id, states[n + 1].q)
  {
    var s, e, t := states[n], events[n], states[n + 1];
    assert Inv(s) by { RunKeeps(states, events, n); }
    assert Takes(s, e, t) by { RunStep(states, events, n + 1); }
    if OfWorker(e) { WorkerLetsRest(s, e, id); } else { OutsideLetsRest(s, e, id); }
  }

  // ---- how often an item is executed ----------------------------------------------------------------------

  predicate IsIn(st: Startup, id: string) {
    exists i :: 0 <= i < |st.batch| && st.batch[i].id == id
  }

  /** How many of the executions on record an item was in. */
  function TimesStarted(starts: seq<Startup>, id: string): nat {
    if starts == [] then 0
    else TimesStarted(starts[..|starts| - 1], id) + if IsIn(starts[|starts| - 1], id) then 1 else 0
  }

  /** A stop that breaks an execution of the item off. */
  predicate StopsIt(s: State, e: Event, id: string) {
    e.Stop? && e.kind in s.pcs && id in s.pcs[e.kind].Batch()
  }

  function TimesStopped(states: seq<State>, events: seq<Event>, n: nat, id: string): nat
    requires n <= |events| && n < |states|
  {
    if n == 0 then 0
    else TimesStopped(states, events, n - 1, id) + if StopsIt(states[n - 1], events[n - 1], id) then 1 else 0
  }

  ghost predicate StartsIt(e: Event, id: string) {
    e.Step? && (e.choice.Run? || e.choice.RunDry?) && id in e.choice.batch
  }

  /** The account of executions moves by this much. */
  ghost predicate Counts(q: Queue, r: Queue, id: string, started: bool, stopped: bool) {
    && Get(r.ledger.runs, id, 0) == Get(q.ledger.runs, id, 0) + (if started then 1 else 0)
    && Get(r.ledger.stops, id, 0) == Get(q.ledger.stops, id, 0) + (if stopped then 1 else 0)
  }

  ghost predicate SameCounts(q: Queue, r: Queue) {
    r.ledger.runs == q.ledger.runs && r.ledger.stops == q.ledger.stops
  }

  lemma {:induction false} FinishesCountNothing(q: Queue, ids: seq<string>, outcome: Outcome)
    ensures SameCounts(q, AllFinished(q, ids, outcome))
  {
    if ids != [] {
      var front, id := ids[..|ids| - 1], ids[|ids| - 1];
      FinishesCountNothing(q, front, outcome);
      var m := AllFinished(q, front, outcome);
      if id in m.items { FinishedEffect(m, m.items[id], outcome); }
    }
  }

  lemma {:induction false} SettlingCountsNothing(q: Queue, ids: seq<string>, verdict: Verdict, limit: nat,
                                                 dues: seq<real>)
    requires |dues| == |ids|
    ensures SameCounts(q, Settled(q, ids, verdict, limit, dues))
  {
    if ids != [] {
      var n := |ids| - 1;
      SettlingCountsNothing(q, ids[..n], verdict, limit, dues[..n]);
      var m := Settled(q, ids[..n], verdict, limit, dues[..n]);
      if ids[n] in m.items { SettledOneCountsNothing(m, ids[n], verdict, limit, dues[n]); }
    }
  }

  lemma SettledOneCountsNothing(q: Queue, id: string, verdict: Verdict, limit: nat, due: real)
    requires id in q.items
    ensures SameCounts(q, SettledOne(q, id, verdict, limit, due))
  {
    var hit := Hit(q.items[id], verdict);
    match FateOf(hit, verdict, id in q.cancelled, limit, due)
    case Leaves(outcome) => FinishedEffect(q, hit, outcome);
    case Stays(at) =>
  }

  lemma {:induction false} LaunchCounts(q: Queue, ids: seq<string>, id: string)
    requires Distinct(ids)
    ensures Counts(q, AllLaunched(q, ids), id, id in ids, false)
  {
    if ids != [] {
      var front, last := ids[..|ids| - 1], ids[|ids| - 1];
      LaunchCounts(q, front, id);
      assert ids == front + [last] && last !in front;
    }
  }

  lemma {:induction false} StopCounts(q: Queue, ids: seq<string>, id: string)
    requires Distinct(ids)
    ensures Counts(q, AllBrokenOff(q, ids), id, false, id in ids)
  {
    if ids != [] {
      var front, last := ids[..|ids| - 1], ids[|ids| - 1];
      StopCounts(q, front, id);
      assert ids == front + [last] && last !in front;
    }
  }

  lemma TallyCountsNothing(q: Queue, slot: Slot, action: Kind, outcome: Outcome)
    ensures SameCounts(q, Tallied(q, slot, action, outcome))
  {
  }

  lemma InsertCountsNothing(q: Queue, item: PendingItem)
    ensures SameCounts(q, Inserted(q, item))
  {
  }

  lemma CaptionCountsNothing(s: State, item: PendingItem, album: Album, hasCaption: bool)
    requires album in s.albums && MovesToCaption(s, s.albums[album], hasCaption)
    ensures SameCounts(s.q, JoinedAlbum(s, item, album, hasCaption).q)
  {
    TallyCountsNothing(CaptionMoved(s.q, s.albums[album].itemId.value, item.msgId), SlotOf(item), item.action, Skipped);
  }

  lemma MemberCountsNothing(s: State, item: PendingItem, album: Album, hasCaption: bool)
    requires album in s.albums && !MovesToCaption(s, s.albums[album], hasCaption)
    ensures SameCounts(s.q, JoinedAlbum(s, item, album, hasCaption).q)
  {
    TallyCountsNothing(s.q, SlotOf(item), item.action, Skipped);
  }

  lemma SubmitCountsNothing(s: State, item: PendingItem, album: Option<Album>, hasCaption: bool)
    ensures SameCounts(s.q, Submitted(s, item, album, hasCaption).q)
  {
    SubmittedByAnswer(s, item, album, hasCaption);
    match SubmitAnswer(s, item, album)
    case Duplicate =>
    case AlbumMember =>
      if MovesToCaption(s, s.albums[album.value], hasCaption) { CaptionCountsNothing(s, item, album.value, hasCaption); }
      else { MemberCountsNothing(s, item, album.value, hasCaption); }
    case Full => TallyCountsNothing(s.q, SlotOf(item), item.action, Errors);
    case Scheduled => InsertCountsNothing(s.q, item);
  }

  lemma OutsideCountsNothing(s: State, e: Event)
    requires QueueInv(s.q) && HeldOk(s.q, s.held) && !OfWorker(e) && EnabledOutside(s, e)
    ensures SameCounts(s.q, NextOutside(s, e).q)
  {
    match e
    case Submit(item, album, hasCaption) => SubmitCountsNothing(s, item, album, hasCaption);
    case CountOnly(slot, action, outcome) => TallyCountsNothing(s.q, slot, action, outcome);
    case CancelItems(sel, drops) => FinishesCountNothing(Doomed(s.q, ToDoom(s.q, sel)), drops, Superseded);
    case ExternalRead(place, maxId, drops) => FinishesCountNothing(s.q, drops, Superseded);
    case Outgoing(chatId, msgId, drops) => FinishesCountNothing(s.q, drops, Superseded);
    case Resume(active) => ResumedKeeps(s.q, s.held, active);
    case _ =>
  }

  lemma StepCounts(s: State, kind: Kind, head: string, choice: Choice, id: string)
    requires EnabledStep(s, kind, head, choice)
    ensures Counts(s.q, Stepped(s, kind, head, choice).q, id, StartsIt(Step(kind, head, choice), id), false)
  {
    match choice
    case Expire => FinishedEffect(s.q, s.q.items[head], Expired);
    case Hold(due) =>
    case TooSoon =>
    case RunDry(batch, dues) =>
      LaunchCounts(s.q, batch, id);
      SettlingCountsNothing(AllLaunched(s.q, batch), batch, Ok, RetryLimit(s, kind), dues);
    case Run(batch, jitter) => LaunchCounts(s.q, batch, id);
  }

  lemma BeginCountsNothing(s: State, kind: Kind, later: real, jitter: real, sweep: seq<string>)
    requires EnabledBegin(s, kind, later, jitter, sweep)
    ensures SameCounts(s.q, Begun(s, kind, later, jitter, sweep).q)
  {
    FinishesCountNothing(s.q, sweep, Done);
  }

  lemma AnswerCountsNothing(s: State, kind: Kind, sweep: seq<string>)
    requires EnabledWorker(s, ReadDone(kind, sweep))
    ensures SameCounts(s.q, NextWorker(s, ReadDone(kind, sweep)).q)
  {
    AnsweredQueue(s, kind, sweep);
    FinishesCountNothing(s.q, sweep, Done);
  }

  lemma StopIsCounted(s: State, kind: Kind, id: string)
    requires PcsOk(s) && EnabledWorker(s, Stop(kind))
    ensures Counts(s.q, AllBrokenOff(s.q, s.pcs[kind].batch), id, false, id in s.pcs[kind].batch)
  {
    assert PcOk(s.q, s.readMarks, s.ownRead, kind, s.pcs[kind]);
    StopCounts(s.q, s.pcs[kind].batch, id);
  }

  lemma WorkerCounts(s: State, e: Event, id: string)
    requires PcsOk(s) && OfWorker(e) && EnabledWorker(s, e)
    ensures Counts(s.q, NextWorker(s, e).q, id, StartsIt(e, id), StopsIt(s, e, id))
  {
    if e.Step? { StepCounts(s, e.kind, e.head, e.choice, id); }
    else if e.Begin? { BeginCountsNothing(s, e.kind, e.later, e.jitter, e.sweep); }
    else if e.ReadDone? { AnswerCountsNothing(s, e.kind, e.sweep); }
    else if e.Settle? { SettlingCountsNothing(s.q, s.pcs[e.kind].batch, e.verdict, RetryLimit(s, e.kind), e.dues); }
    else if e.Stop? { StopIsCounted(s, e.kind, id); }
    else { assert NextWorker(s, e).q == s.q; }
  }

  lemma EventCounts(s: State, e: Event, t: State, id: string)
    requires Inv(s) && Takes(s, e, t)
    ensures Counts(s.q, t.q, id, StartsIt(e, id), StopsIt(s, e, id))
  {
    if OfWorker(e) { WorkerCounts(s, e, id); } else { OutsideCountsNothing(s, e); }
  }

  lemma RecordsCount(s: State, e: Event, t: State, id: string)
    requires IdsOk(s.q) && Records(s, e, t)
    ensures TimesStarted(t.starts, id) == TimesStarted(s.starts, id) + if StartsIt(e, id) then 1 else 0
  {
    if t.starts != s.starts {
      var st := Startup(s.now, s.q.items[e.head], ItemsAt(s.q, e.choice.batch));
      assert t.starts[..|t.starts| - 1] == s.starts && t.starts[|t.starts| - 1] == st;
      BatchHolds(s.q, e.choice.batch, st, id);
    }
  }

  lemma BatchHolds(q: Queue, batch: seq<string>, st: Startup, id: string)
    requires IdsOk(q) && (forall x :: x in batch ==> x in q.items) && st.batch == ItemsAt(q, batch)
    ensures IsIn(st, id) <==> id in batch
  {
    if id in batch {
      var i :| 0 <= i < |batch| && batch[i] == id;
      assert st.batch[i].id == id;
    }
  }

  lemma RunCounts(states: seq<State>, events: seq<Event>, n: nat, id: string)
    requires IsRun(states, events) && 0 < n < |states|
    ensures Counts(states[n - 1].q, states[n].q, id, StartsIt(events[n - 1], id),
                   StopsIt(states[n - 1], events[n - 1], id))
    ensures TimesStarted(states[n].starts, id)
            == TimesStarted(states[n - 1].starts, id) + if StartsIt(events[n - 1], id) then 1 else 0
  {
    var s, e, t := states[n - 1], events[n - 1], states[n];
    assert Inv(s) by { RunKeeps(states, events, n - 1); }
    assert Takes(s, e, t) by { RunStep(states, events, n); }
    EventCounts(s, e, t, id);
    EventRecords(s, e, t);
    RecordsCount(s, e, t, id);
  }

  lemma {:induction false} AccountIsOfTheRun(states: seq<State>, events: seq<Event>, n: nat, id: string)
    requires IsRun(states, events) && n < |states|
    ensures Get(states[n].q.ledger.runs, id, 0) == TimesStarted(states[n].starts, id)
    ensures Get(states[n].q.ledger.stops, id, 0) == TimesStopped(states, events, n, id)
  {
    if n > 0 {
      AccountIsOfTheRun(states, events, n - 1, id);
      RunCounts(states, events, n, id);
    }
  }

  /** In every run an item is in at most 24 executions, but for those a stop broke off: ten floods, twelve retries,
      typing, and the last. */
  lemma ExecutionsAreFew(states: seq<State>, events: seq<Event>, n: nat, id: string)
    requires IsRun(states, events) && n < |states|
    ensures TimesStarted(states[n].starts, id) <= 24 + TimesStopped(states, events, n, id)
  {
    Promises.ExecutionsAreBounded(states, events, n, id);
    AccountIsOfTheRun(states, events, n, id);
  }
}
