/** What a command or a submission does to the queue: which items it concerns, what becomes of them, and that it leaves
    the others alone. The conditions are written out field by field. */
module Commands {
  import opened Basics
  import opened Items
  import opened Queues
  import opened Store
  import opened Machine
  import opened Safety
  import Accounts
  import Deliveries
  import Restart

  /** The item leaves with this outcome, as it was. */
  ghost predicate Ends(q: Queue, id: string, outcome: Outcome, r: Queue) {
    id in q.items && id !in r.items && id in r.ledger.ended && r.ledger.ended[id] == End(q.items[id], outcome)
  }

  /** The item stays just as it was. */
  ghost predicate Stays(q: Queue, id: string, r: Queue) {
    && id in q.items && id in r.items && r.items[id] == q.items[id]
    && (id in r.running <==> id in q.running)
  }

  // ---- cancel ----------------------------------------------------------------------------------------

  /** Everything; or what all the criteria given agree on, of which there must be one. */
  predicate Wanted(sel: Selector, item: PendingItem) {
    if sel.everything then true
    else if sel.ids == {} && sel.chatId == None && sel.job == None then false
    else
      && (sel.ids != {} ==> item.id in sel.ids)
      && (sel.chatId.Some? ==> item.chatId == sel.chatId.value)
      && (sel.job.Some? ==> item.job == sel.job.value)
  }

  /** A running item is marked when everything is cancelled, or its whole job. */
  predicate MarksRunning(sel: Selector, item: PendingItem) {
    sel.everything || (sel.ids == {} && sel.job.Some? && sel.job.value == item.job)
  }

  /** Pending items that are wanted leave as superseded, running ones may be marked, and that is all. */
  ghost predicate Cancels(q: Queue, sel: Selector, r: Queue) {
    && (forall id :: id in q.items && id !in q.running && Wanted(sel, q.items[id]) ==> Ends(q, id, Superseded, r))
    && (forall id :: id in q.items && (id in q.running || !Wanted(sel, q.items[id])) ==> Stays(q, id, r))
    && (forall id :: id in r.items ==> id in q.items)
    && (forall id :: id in q.items && id in q.running ==>
          (id in r.cancelled <==> id in q.cancelled || MarksRunning(sel, q.items[id])))
  }

  lemma WantedIs(q: Queue, sel: Selector, id: string)
    requires IdsOk(q)
    ensures id in ToCancel(q, sel) <==> id in q.items && id !in q.running && Wanted(sel, q.items[id])
    ensures id in ToDoom(q, sel) <==> id in q.items && id in q.running && MarksRunning(sel, q.items[id])
  {
  }

  lemma CancelIsExact(q: Queue, sel: Selector, drops: seq<string>)
    requires QueueInv(q) && Enumerates(drops, ToCancel(q, sel))
    ensures Cancels(q, sel, AllFinished(Doomed(q, ToDoom(q, sel)), drops, Superseded))
  {
    var m := Doomed(q, ToDoom(q, sel));
    var r := AllFinished(m, drops, Superseded);
    assert Dropped(m, SetOf(drops), Superseded, r) by {
      DoomedKeeps(q, ToDoom(q, sel));
      EnumerationIsSet(drops, ToCancel(q, sel));
      AllFinishedKeeps(m, drops, Superseded);
    }
    forall id ensures id in SetOf(drops) <==> id in q.items && id !in q.running && Wanted(sel, q.items[id]) {
      WantedIs(q, sel, id);
      EnumerationIsSet(drops, ToCancel(q, sel));
    }
    forall id | id in q.items && id in q.running
      ensures id in m.cancelled <==> id in q.cancelled || MarksRunning(sel, q.items[id])
    {
      WantedIs(q, sel, id);
    }
  }

  /** In every run: a cancel does just what its criteria say. */
  lemma CancelsJustWhatIsWanted(states: seq<State>, events: seq<Event>, n: nat)
    requires IsRun(states, events) && n < |events| && events[n].CancelItems?
    ensures Cancels(states[n].q, events[n].selector, states[n + 1].q)
  {
    var s, e, t := states[n], events[n], states[n + 1];
    assert QueueInv(s.q) by { RunKeeps(states, events, n); }
    assert Takes(s, e, t) by { RunStep(states, events, n + 1); }
    CancelIsExact(s.q, e.selector, e.drops);
  }

  // ---- forgetting a job ----------------------------------------------------------------------------------

  /** The job's pending items are gone, its running ones are marked, its counters are gone; of other jobs nothing is
      touched. */
  ghost predicate Forgets(q: Queue, job: string, r: Queue) {
    && (forall id :: id in q.items && id !in q.running && q.items[id].job == job ==>
          id !in r.items && id in r.ledger.forgotten)
    && (forall id :: id in q.items && (id in q.running || q.items[id].job != job) ==> Stays(q, id, r))
    && (forall id :: id in r.items ==> id in q.items)
    && (forall id :: id in q.items && id in q.running ==>
          (id in r.cancelled <==> id in q.cancelled || q.items[id].job == job))
    && (forall slot :: slot in r.stats <==> slot in q.stats && slot.0 != job)
    && (forall slot :: slot in r.stats ==> r.stats[slot] == q.stats[slot])
    && r.recent == q.recent && r.ledger.ended == q.ledger.ended
  }

  lemma ForgetIsExact(q: Queue, job: string)
    requires IdsOk(q)
    ensures Forgets(q, job, Forgotten(q, job))
  {
  }

  /** In every run: forgetting a job does just that. */
  lemma ForgetsJustTheJob(states: seq<State>, events: seq<Event>, n: nat)
    requires IsRun(states, events) && n < |events| && events[n].ForgetJob?
    ensures Forgets(states[n].q, events[n].job, states[n + 1].q)
  {
    var s, e, t := states[n], events[n], states[n + 1];
    assert IdsOk(s.q) by { RunKeeps(states, events, n); }
    assert Takes(s, e, t) by { RunStep(states, events, n + 1); }
    EventForgets(s, e, t);
  }

  lemma EventForgets(s: State, e: Event, t: State)
    requires IdsOk(s.q) && Takes(s, e, t) && e.ForgetJob?
    ensures Forgets(s.q, e.job, t.q)
  {
    assert t.q == Forgotten(s.q, e.job);
    ForgetIsExact(s.q, e.job);
  }

  // ---- the sweep of a reaction -----------------------------------------------------------------------------

  /** A pending read of the same place at or below the message, that clears no badge and is no dry run. */
  predicate IsCovered(q: Queue, item: PendingItem, id: string) {
    && id in q.items && id !in q.running && q.items[id].action == Read && !q.items[id].dryRun
    && q.items[id].chatId == item.chatId && q.items[id].topicId == item.topicId && q.items[id].msgId <= item.msgId
    && !q.items[id].payload.mentions && !q.items[id].payload.reactions
  }

  /** Those are done, and nothing else changes. */
  ghost predicate Sweeps(q: Queue, item: PendingItem, r: Queue) {
    && (forall id :: IsCovered(q, item, id) ==> Ends(q, id, Done, r))
    && (forall id :: id in q.items && !IsCovered(q, item, id) ==> Stays(q, id, r))
    && (forall id :: id in r.items ==> id in q.items)
  }

  lemma SweepIsExact(q: Queue, item: PendingItem, sweep: seq<string>)
    requires QueueInv(q) && Enumerates(sweep, SatisfiedReads(q, PlaceOf(item), item.msgId))
    ensures Sweeps(q, item, AllFinished(q, sweep, Done))
  {
    EnumerationIsSet(sweep, SatisfiedReads(q, PlaceOf(item), item.msgId));
    AllFinishedKeeps(q, sweep, Done);
    forall id ensures id in SetOf(sweep) <==> IsCovered(q, item, id) {
    }
  }

  /** The reaction its worker is at. */
  function Reaction(s: State): Option<PendingItem> {
    if React in s.pcs && s.pcs[React].Batch() != [] && s.pcs[React].Batch()[0] in s.q.items
    then Some(s.q.items[s.pcs[React].Batch()[0]]) else None
  }

  lemma AnswerSweeps(s: State, sweep: seq<string>)
    requires Inv(s) && EnabledWorker(s, ReadDone(React, sweep))
    ensures Reaction(s).Some? && Sweeps(s.q, Reaction(s).value, NextWorker(s, ReadDone(React, sweep)).q)
  {
    var item := s.q.items[s.pcs[React].batch[0]];
    assert s.pcs[React].target == item.msgId by { assert PcOk(s.q, s.readMarks, s.ownRead, React, s.pcs[React]); }
    SweepIsExact(s.q, item, sweep);
  }

  lemma BeginSweeps(s: State, later: real, jitter: real, sweep: seq<string>)
    requires QueueInv(s.q) && EnabledBegin(s, React, later, jitter, sweep)
    requires Reaction(s).Some? ==> Get(s.readMarks, PlaceOf(Reaction(s).value), 0) >= Reaction(s).value.msgId
    ensures Reaction(s).Some? && Sweeps(s.q, Reaction(s).value, NextWorker(s, Begin(React, later, jitter, sweep)).q)
  {
    Deliveries.ReactBegunIs(s, later, jitter, sweep);
    SweepIsExact(s.q, s.q.items[s.pcs[React].batch[0]], sweep);
  }

  /** In every run: when a reaction finds its chat read, or its read is answered, the pending reads it covers are done in
      the same stretch, and no other item is touched. */
  lemma ReactionsSweep(states: seq<State>, events: seq<Event>, n: nat)
    requires IsRun(states, events) && n < |events|
    requires (events[n].ReadDone? || events[n].Begin?) && events[n].kind == React
    requires events[n].Begin? && Reaction(states[n]).Some? ==>
      var item := Reaction(states[n]).value;
      Get(states[n].readMarks, (item.chatId, item.topicId), 0) >= item.msgId
    ensures Reaction(states[n]).Some? && Sweeps(states[n].q, Reaction(states[n]).value, states[n + 1].q)
  {
    var s, e, t := states[n], events[n], states[n + 1];
    assert Inv(s) by { RunKeeps(states, events, n); }
    assert Takes(s, e, t) by { RunStep(states, events, n + 1); }
    if e.ReadDone? { AnswerSweeps(s, e.sweep); } else { BeginSweeps(s, e.later, e.jitter, e.sweep); }
  }

  // ---- submitting -------------------------------------------------------------------------------------------

  /** A live item has the key, or it is among those remembered. */
  predicate IsKnown(q: Queue, key: string) {
    key != "" && ((exists id :: id in q.items && q.items[id].key == key) || key in q.recent)
  }

  /** An item was accepted for the album, and the album is still remembered. */
  predicate HasItem(s: State, album: Option<Album>) {
    album.Some? && album.value in s.albums && s.albums[album.value].itemId.Some?
  }

  /** The message brings the caption that the album's pending item still lacks. */
  predicate BringsCaption(s: State, album: Album, hasCaption: bool)
    requires HasItem(s, Some(album))
  {
    var memo := s.albums[album];
    hasCaption && !memo.hasCaption && memo.itemId.value in s.q.items && memo.itemId.value !in s.q.running
  }

  /** A further message of an album: its item moves to the message with the caption, once, and nothing is queued. */
  ghost predicate IsJoined(s: State, item: PendingItem, album: Album, hasCaption: bool, t: State)
    requires HasItem(s, Some(album))
  {
    var memo := s.albums[album];
    && t.q.items.Keys == s.q.items.Keys && t.q.keys == s.q.keys && t.q.recent == s.q.recent
    && (forall id :: id in s.q.items ==>
          t.q.items[id] == if BringsCaption(s, album, hasCaption) && id == memo.itemId.value
                           then s.q.items[id].(msgId := item.msgId) else s.q.items[id])
    && t.albums == s.albums[album := memo.(hasCaption := memo.hasCaption || BringsCaption(s, album, hasCaption))]
  }

  /** The item is queued as it is, and its album remembers it. */
  ghost predicate IsQueued(s: State, item: PendingItem, album: Option<Album>, hasCaption: bool, t: State) {
    && t.q.items == s.q.items[item.id := item] && t.q.running == s.q.running
    && (forall key :: key in t.q.keys <==> key in s.q.keys || (key != "" && key == item.key))
    && t.q.recent == s.q.recent
    && t.albums.Keys == s.albums.Keys + (if album.Some? then {album.value} else {})
    && (forall a :: a in s.albums && album != Some(a) ==> t.albums[a] == s.albums[a])
    && (album.Some? ==> t.albums[album.value].itemId == Some(item.id) && t.albums[album.value].hasCaption == hasCaption)
    && (album.Some? && album.value in s.albums ==> t.albums[album.value].roll == s.albums[album.value].roll)
  }

  /** A known key changes nothing; an album that has its item takes no other; a queue of ten thousand takes none; and
      everything else is queued. */
  ghost predicate IsSubmitted(s: State, item: PendingItem, album: Option<Album>, hasCaption: bool, t: State) {
    if IsKnown(s.q, item.key) then t == s
    else if HasItem(s, album) then IsJoined(s, item, album.value, hasCaption, t)
    else if |s.q.items| >= 10000 then t == s.(q := t.q) && t.q.items == s.q.items && t.q.recent == s.q.recent
    else IsQueued(s, item, album, hasCaption, t)
  }

  lemma KnownIs(q: Queue, key: string)
    requires KeysOk(q)
    ensures IsKnown(q, key) <==> key != "" && (key in q.keys || key in q.recent)
  {
    if key in q.keys { assert q.items[q.keys[key]].key == key; }
  }

  lemma TallyKeepsItems(q: Queue, slot: Slot, action: Kind, outcome: Outcome)
    ensures var r := Tallied(q, slot, action, outcome);
      r.items == q.items && r.keys == q.keys && r.recent == q.recent && r.running == q.running
  {
  }

  lemma CaptionIsMoved(s: State, item: PendingItem, album: Album, hasCaption: bool)
    requires IdsOk(s.q) && HasItem(s, Some(album)) && BringsCaption(s, album, hasCaption)
    ensures IsJoined(s, item, album, hasCaption, JoinedAlbum(s, item, album, hasCaption))
  {
    var id := s.albums[album].itemId.value;
    assert MovesToCaption(s, s.albums[album], hasCaption);
    TallyKeepsItems(CaptionMoved(s.q, id, item.msgId), SlotOf(item), item.action, Skipped);
    assert CaptionMoved(s.q, id, item.msgId).items == s.q.items[id := s.q.items[id].(msgId := item.msgId)];
  }

  lemma MemberIsSkipped(s: State, item: PendingItem, album: Album, hasCaption: bool)
    requires HasItem(s, Some(album)) && !BringsCaption(s, album, hasCaption)
    ensures IsJoined(s, item, album, hasCaption, JoinedAlbum(s, item, album, hasCaption))
  {
    assert !MovesToCaption(s, s.albums[album], hasCaption);
    TallyKeepsItems(s.q, SlotOf(item), item.action, Skipped);
    assert s.albums[album := s.albums[album]] == s.albums;
  }

  lemma EnqueueIsExact(s: State, item: PendingItem, album: Option<Album>, hasCaption: bool)
    ensures IsQueued(s, item, album, hasCaption, Enqueued(s, item, album, hasCaption))
  {
  }

  lemma SubmitIsExact(s: State, item: PendingItem, album: Option<Album>, hasCaption: bool)
    requires IdsOk(s.q) && KeysOk(s.q)
    ensures IsSubmitted(s, item, album, hasCaption, Submitted(s, item, album, hasCaption))
  {
    KnownIs(s.q, item.key);
    SubmittedByAnswer(s, item, album, hasCaption);
    if IsKnown(s.q, item.key) {
    } else if HasItem(s, album) {
      if BringsCaption(s, album.value, hasCaption) { CaptionIsMoved(s, item, album.value, hasCaption); }
      else { MemberIsSkipped(s, item, album.value, hasCaption); }
    } else if |s.q.items| >= 10000 {
      TallyKeepsItems(s.q, SlotOf(item), item.action, Errors);
    } else {
      EnqueueIsExact(s, item, album, hasCaption);
    }
  }

  /** In every run: what each submission does. */
  lemma SubmissionsAreExact(states: seq<State>, events: seq<Event>, n: nat)
    requires IsRun(states, events) && n < |events| && events[n].Submit?
    ensures IsSubmitted(states[n], events[n].item, events[n].album, events[n].hasCaption, states[n + 1])
  {
    var s, e, t := states[n], events[n], states[n + 1];
    assert QueueInv(s.q) by { RunKeeps(states, events, n); }
    assert Takes(s, e, t) by { RunStep(states, events, n + 1); }
    EventSubmits(s, e, t);
  }

  lemma EventSubmits(s: State, e: Event, t: State)
    requires QueueInv(s.q) && Takes(s, e, t) && e.Submit?
    ensures IsSubmitted(s, e.item, e.album, e.hasCaption, t)
  {
    SubmitIsExact(s, e.item, e.album, e.hasCaption);
  }

  // ---- one item for an album ----------------------------------------------------------------------------------

  lemma JoinKeepsAlbums(s: State, item: PendingItem, of: Album, hasCaption: bool, album: Album)
    requires HasItem(s, Some(album)) && of in s.albums
    ensures HasItem(JoinedAlbum(s, item, of, hasCaption), Some(album))
  {
    var t := JoinedAlbum(s, item, of, hasCaption);
    assert t.albums == s.albums || t.albums == s.albums[of := s.albums[of].(hasCaption := true)];
  }

  lemma EnqueueKeepsAlbums(s: State, item: PendingItem, of: Option<Album>, hasCaption: bool, album: Album)
    requires HasItem(s, Some(album))
    ensures HasItem(Enqueued(s, item, of, hasCaption), Some(album))
  {
    var t := Enqueued(s, item, of, hasCaption);
    if of.Some? {
      assert t.albums == s.albums[of.value := Memo(RollOf(s, of.value), Some(item.id), hasCaption)];
    }
  }

  lemma SubmitKeepsAlbums(s: State, item: PendingItem, of: Option<Album>, hasCaption: bool, album: Album)
    requires HasItem(s, Some(album))
    ensures HasItem(Submitted(s, item, of, hasCaption), Some(album))
  {
    SubmittedByAnswer(s, item, of, hasCaption);
    AnsweredKeepsAlbums(s, SubmitAnswer(s, item, of), item, of, hasCaption, album);
  }

  lemma AnsweredKeepsAlbums(s: State, answer: Answer, item: PendingItem, of: Option<Album>, hasCaption: bool,
                            album: Album)
    requires answer == AlbumMember ==> of.Some? && of.value in s.albums
    requires HasItem(s, Some(album))
    ensures HasItem(Answered(s, answer, item, of, hasCaption), Some(album))
  {
    match answer
    case Duplicate =>
    case AlbumMember => JoinKeepsAlbums(s, item, of.value, hasCaption, album);
    case Full =>
    case Scheduled => EnqueueKeepsAlbums(s, item, of, hasCaption, album);
  }

  lemma RollKeepsAlbums(s: State, rolled: Album, roll: bool, album: Album)
    requires HasItem(s, Some(album)) && album in Rolled(s, rolled, roll).albums
    ensures HasItem(Rolled(s, rolled, roll), Some(album))
  {
  }

  lemma QuietKeepsAlbums(s: State, e: Event)
    requires !OfWorker(e) && !e.Submit? && !e.AlbumRoll?
    ensures NextOutside(s, e).albums == s.albums
  {
  }

  lemma OutsideKeepsAlbums(s: State, e: Event, album: Album)
    requires !OfWorker(e) && HasItem(s, Some(album)) && album in NextOutside(s, e).albums
    ensures HasItem(NextOutside(s, e), Some(album))
  {
    if e.Submit? { SubmitKeepsAlbums(s, e.item, e.album, e.hasCaption, album); }
    else if e.AlbumRoll? { RollKeepsAlbums(s, e.rolled, e.roll, album); }
    else { QuietKeepsAlbums(s, e); }
  }

  lemma {:induction false} NotingKeepsAlbums(s: State, sent: seq<Sent>)
    ensures SentNoted(s, sent).albums == s.albums
  {
    if sent != [] { NotingKeepsAlbums(s, sent[..|sent| - 1]); }
  }

  lemma StepKeepsAlbums(s: State, kind: Kind, head: string, choice: Choice)
    requires EnabledStep(s, kind, head, choice)
    ensures Stepped(s, kind, head, choice).albums == s.albums
  {
  }

  lemma AnswerKeepsAlbums(s: State, kind: Kind, sweep: seq<string>)
    requires EnabledWorker(s, ReadDone(kind, sweep))
    ensures NextWorker(s, ReadDone(kind, sweep)).albums == s.albums
  {
    var batch := s.pcs[kind].batch;
    var item := s.q.items[batch[0]];
    var noted := Noted(s, PlaceOf(item), s.pcs[kind].target);
    if kind == React { assert Spoken(noted, ReactIssued(noted, batch, item, sweep)); }
  }

  lemma EndKeepsAlbums(s: State, e: Event)
    requires (e.Break? || e.Settle? || e.Stop?) && EnabledWorker(s, e)
    ensures NextWorker(s, e).albums == s.albums
  {
  }

  lemma WorkerKeepsAlbums(s: State, e: Event)
    requires OfWorker(e) && EnabledWorker(s, e)
    ensures NextWorker(s, e).albums == s.albums
  {
    if e.Step? { StepKeepsAlbums(s, e.kind, e.head, e.choice); }
    else if e.Begin? || e.Wake? { assert Spoken(s, NextWorker(s, e)); }
    else if e.ReadDone? { AnswerKeepsAlbums(s, e.kind, e.sweep); }
    else if e.ActDone? { NotingKeepsAlbums(s.(pcs := s.pcs[e.kind := Closing(s.pcs[e.kind].batch, Ok)]), e.sent); }
    else { EndKeepsAlbums(s, e); }
  }

  lemma EventKeepsAlbums(s: State, e: Event, t: State, album: Album)
    requires Takes(s, e, t) && HasItem(s, Some(album)) && album in t.albums
    ensures HasItem(t, Some(album))
  {
    if OfWorker(e) { WorkerKeepsAlbums(s, e); } else { OutsideKeepsAlbums(s, e, album); }
  }

  lemma RunEventKeepsAlbums(states: seq<State>, events: seq<Event>, n: nat, album: Album)
    requires IsRun(states, events) && 0 < n < |states|
    requires HasItem(states[n - 1], Some(album)) && album in states[n].albums
    ensures HasItem(states[n], Some(album))
  {
    var s, e, t := states[n - 1], events[n - 1], states[n];
    assert Takes(s, e, t) by { RunStep(states, events, n); }
    EventKeepsAlbums(s, e, t, album);
  }

  lemma {:induction false} RunKeepsAlbums(states: seq<State>, events: seq<Event>, m: nat, n: nat, album: Album)
    requires IsRun(states, events) && m <= n < |states| && HasItem(states[m], Some(album))
    requires forall j :: m < j <= n ==> album in states[j].albums
    ensures HasItem(states[n], Some(album))
  {
    if m < n {
      RunKeepsAlbums(states, events, m, n - 1, album);
      RunEventKeepsAlbums(states, events, n, album);
    }
  }

  /** In every run: once an item was accepted for an album, and as long as the album is remembered, no other one is. */
  lemma OneItemForAnAlbum(states: seq<State>, events: seq<Event>, m: nat, n: nat, album: Album)
    requires IsRun(states, events) && m <= n < |events| && HasItem(states[m], Some(album))
    requires forall j :: m < j <= n ==> album in states[j].albums
    requires events[n].Submit? && events[n].album == Some(album)
    ensures states[n + 1].q.items.Keys == states[n].q.items.Keys
  {
    RunKeepsAlbums(states, events, m, n, album);
    SubmissionsAreExact(states, events, n);
  }

  /** An album that is not remembered yet is from now on, with its roll; of the others the oldest go, so that at most two
      thousand are left in the order they came, each as it was. One that is remembered keeps its roll. */
  ghost predicate IsRolled(s: State, album: Album, roll: bool, t: State) {
    if album in s.albums then t == s
    else
      && |t.albumOrder| == (if |s.albumOrder| + 1 <= 2000 then |s.albumOrder| + 1 else 2000)
      && t.albumOrder == (s.albumOrder + [album])[|s.albumOrder| + 1 - |t.albumOrder|..]
      && (forall a :: a in t.albums ==>
            if a == album then t.albums[a] == Memo(roll, None, false) else a in s.albums && t.albums[a] == s.albums[a])
      && (forall a :: a in s.albums && a !in t.albums ==>
            exists i :: 0 <= i < |s.albumOrder| + 1 - |t.albumOrder| && (s.albumOrder + [album])[i] == a)
  }

  lemma RollIsExact(s: State, album: Album, roll: bool)
    ensures IsRolled(s, album, roll, Rolled(s, album, roll))
  {
  }

  /** In every run: a roll is made once for an album, for as long as it is remembered. */
  lemma RollsAreExact(states: seq<State>, events: seq<Event>, n: nat)
    requires IsRun(states, events) && n < |events| && events[n].AlbumRoll?
    ensures IsRolled(states[n], events[n].rolled, events[n].roll, states[n + 1])
  {
    var s, e, t := states[n], events[n], states[n + 1];
    assert Takes(s, e, t) by { RunStep(states, events, n + 1); }
    RollIsExact(s, e.rolled, e.roll);
  }

  // ---- how many there can be ------------------------------------------------------------------------------------

  /** Ten thousand submitted, and ten thousand from the file. */
  ghost predicate IsBounded(s: State) {
    |s.held| <= 10000 && |s.q.items| + |s.held| <= 20000
  }

  lemma {:induction false} ResumedIsBounded(q: Queue, held: seq<Record>, active: set<string>)
    ensures |Resumed(q, held, active).items| <= |q.items| + |held|
  {
    if held != [] {
      var front, last := held[..|held| - 1], held[|held| - 1];
      ResumedIsBounded(q, front, active);
      var m := Resumed(q, front, active);
      if ResumedOne(m, last, active) != m { Restart.RestoredParts(m, last.item); }
    }
  }

  lemma FewerItems(q: Queue, r: Queue)
    requires r.items.Keys <= q.items.Keys
    ensures |r.items| <= |q.items|
  {
    CardOfSubset(r.items.Keys, q.items.Keys);
  }

  lemma LoadingIsBounded(s: State, e: Event)
    requires Inv(s) && IsBounded(s) && (e.Resume? || e.Preload?) && EnabledOutside(s, e)
    ensures IsBounded(NextOutside(s, e))
  {
    if e.Resume? { ResumedIsBounded(s.q, s.held, e.active); } else { assert s.q == EMPTY; }
  }

  lemma HandingInIsBounded(s: State, e: Event)
    requires Inv(s) && IsBounded(s) && Accounts.HandsIn(e) && EnabledOutside(s, e)
    ensures IsBounded(NextOutside(s, e))
  {
    if e.Submit? { SubmittedIsBounded(s, e.item, e.album, e.hasCaption); }
    else if e.Resume? || e.Preload? { LoadingIsBounded(s, e); }
    else if e.ForgetJob? { FewerItems(s.q, Forgotten(s.q, e.job)); }
    else { TallyKeepsItems(s.q, e.slot, e.action, e.outcome); }
  }

  lemma MemberKeepsItems(s: State, item: PendingItem, album: Album, hasCaption: bool)
    requires IdsOk(s.q) && HasItem(s, Some(album))
    ensures JoinedAlbum(s, item, album, hasCaption).q.items.Keys == s.q.items.Keys
  {
    if BringsCaption(s, album, hasCaption) {
      CaptionIsMoved(s, item, album, hasCaption);
    } else {
      MemberIsSkipped(s, item, album, hasCaption);
    }
  }

  lemma SubmittedItems(s: State, item: PendingItem, album: Option<Album>, hasCaption: bool)
    requires IdsOk(s.q)
    ensures var r := Submitted(s, item, album, hasCaption).q.items;
      if SubmitAnswer(s, item, album) == Scheduled then |s.q.items| < 10000 && r == s.q.items[item.id := item]
      else r.Keys == s.q.items.Keys
  {
    SubmittedByAnswer(s, item, album, hasCaption);
    match SubmitAnswer(s, item, album)
    case Duplicate =>
    case AlbumMember => MemberKeepsItems(s, item, album.value, hasCaption);
    case Full => TallyKeepsItems(s.q, SlotOf(item), item.action, Errors);
    case Scheduled =>
  }

  lemma SubmittedIsBounded(s: State, item: PendingItem, album: Option<Album>, hasCaption: bool)
    requires IdsOk(s.q) && IsBounded(s)
    ensures IsBounded(Submitted(s, item, album, hasCaption))
  {
    var t := Submitted(s, item, album, hasCaption);
    SubmittedItems(s, item, album, hasCaption);
    if SubmitAnswer(s, item, album) != Scheduled { FewerItems(s.q, t.q); }
  }

  lemma EventKeepsBounded(s: State, e: Event, t: State)
    requires Inv(s) && Takes(s, e, t) && IsBounded(s)
    ensures IsBounded(t)
  {
    if Accounts.HandsIn(e) {
      HandingInIsBounded(s, e);
    } else {
      Accounts.NextMoves(s, e);
      FewerItems(s.q, t.q);
      HeldStays(s, e, t);
    }
  }

  lemma HeldStays(s: State, e: Event, t: State)
    requires Takes(s, e, t) && !Accounts.HandsIn(e)
    ensures t.held == s.held
  {
    if OfWorker(e) { assert OneCall(s, NextWorker(s, e)); }
  }

  /** In every run the queue holds at most twenty thousand items: submissions stop at ten thousand, and a resume adds no
      more than the ten thousand of a file. */
  lemma {:induction false} QueueIsBounded(states: seq<State>, events: seq<Event>, n: nat)
    requires IsRun(states, events) && n < |states|
    ensures |states[n].held| <= 10000 && |states[n].q.items| + |states[n].held| <= 20000
  {
    if n > 0 {
      QueueIsBounded(states, events, n - 1);
      RunEventKeepsBounded(states, events, n);
    }
  }

  lemma RunEventKeepsBounded(states: seq<State>, events: seq<Event>, n: nat)
    requires IsRun(states, events) && 0 < n < |states| && IsBounded(states[n - 1])
    ensures IsBounded(states[n])
  {
    var s, e, t := states[n - 1], events[n - 1], states[n];
    assert Inv(s) by { RunKeeps(states, events, n - 1); }
    assert Takes(s, e, t) by { RunStep(states, events, n); }
    EventKeepsBounded(s, e, t);
  }
}
