/** What every event of the scheduler keeps, and what that promises over whole runs. */
module Safety {
  import opened Basics
  import opened Items
  import opened Queues
  import opened Store
  import opened Machine
  import Pacing

  // ---- the invariant ---------------------------------------------------------------

  /** A batch in flight: running items of one kind and one batch key, none of them a dry run. */
  ghost predicate BatchOk(q: Queue, kind: Kind, batch: seq<string>) {
    && batch != [] && |batch| <= MAX_BATCH && Distinct(batch)
    && (forall id :: id in batch ==>
          && id in q.items && id in q.running
          && q.items[id].action == kind && !q.items[id].dryRun)
    && batch[0] in q.items
    && (forall id :: id in batch ==> id in q.items && BatchKeyOf(q.items[id]) == BatchKeyOf(q.items[batch[0]]))
    && (kind !in {Read, View} ==> |batch| == 1)
  }

  ghost predicate AllAtOrBelow(q: Queue, batch: seq<string>, target: int) {
    forall id :: id in batch ==> id in q.items && q.items[id].msgId <= target
  }

  /** What is known wherever the worker of a kind is suspended. */
  ghost predicate PcOk(q: Queue, marks: map<Place, int>, own: map<Place, int>, kind: Kind, pc: Pc) {
    pc.Idle? ||
    (&& BatchOk(q, kind, pc.batch)
     && var first := q.items[pc.batch[0]];
        match pc
        case Opening(_) => true
        case Pacing(_) => kind == React
        case Reading(batch, target) =>
          && kind in {React, Read}
          && target <= Get(own, PlaceOf(first), 0)
          && AllAtOrBelow(q, batch, target)
          && (kind == React ==> target == first.msgId)
        case Acting(_) =>
          && kind != Read
          && (kind == React ==> first.msgId <= Get(marks, PlaceOf(first), 0))
        case Closing(batch, verdict) =>
          && (verdict == Ok && kind == Read ==> AllAtOrBelow(q, batch, Get(marks, PlaceOf(first), 0)))
          && (verdict.Later? ==> kind == Reply && Paid(q, first)))
  }

  ghost predicate Full<T>(m: map<Kind, T>) {
    forall k: Kind :: k in m
  }

  ghost predicate PcsOk(s: State) {
    && Full(s.pcs)
    && (forall k :: k in s.pcs ==> PcOk(s.q, s.readMarks, s.ownRead, k, s.pcs[k]))
    && (forall id :: id in s.q.running ==>
          id in s.q.items && s.q.items[id].action in s.pcs && id in s.pcs[s.q.items[id].action].Batch())
  }

  ghost predicate PacersOk(s: State) {
    && Full(s.pacers)
    && forall k :: k in s.pacers ==> Pacing.Valid(s.pacers[k]) && s.pacers[k].log.seen <= s.now
  }

  /** Every request: no dry-run item reaches the op runner; a reaction goes out at or below the read mark;
      a read was announced before it went out; a view names every id it is counted for. */
  ghost predicate CallOk(c: Call, own: map<Place, int>) {
    && (forall i :: 0 <= i < |c.items| ==> !c.items[i].dryRun)
    && match c.op
       case ReactionOp(_, msgId, mark) => msgId <= mark
       case ReadOp(place, upTo, _, _) => upTo <= Get(own, place, 0)
       case ViewOp(_, _, ids) => ids == Ids(c.items)
       case _ => true
  }

  ghost predicate CallsOk(s: State) {
    forall i :: 0 <= i < |s.calls| ==> CallOk(s.calls[i], s.ownRead)
  }

  /** Every execution: a batch of at most a hundred around what `_peek` chose, each item due, unexpired,
      outside its own quiet hours, and with the head's batch key. */
  ghost predicate StartOk(st: Startup) {
    && st.head in st.batch && |st.batch| <= MAX_BATCH
    && forall i :: 0 <= i < |st.batch| ==>
         && MayStart(st.batch[i], st.at)
         && st.batch[i].action == st.head.action
         && BatchKeyOf(st.batch[i]) == BatchKeyOf(st.head)
         && st.batch[i].dryRun == st.head.dryRun
  }

  ghost predicate StartsOk(s: State) {
    forall i :: 0 <= i < |s.starts| ==> StartOk(s.starts[i])
  }

  /** A read that ended `done` (and was not a dry run) is at or below its mark. */
  ghost predicate EndOk(end: End, marks: map<Place, int>) {
    end.outcome == Done && end.item.action == Read && !end.item.dryRun ==>
      end.item.msgId <= Get(marks, PlaceOf(end.item), 0)
  }

  ghost predicate EndsOk(s: State) {
    forall id :: id in s.q.ledger.ended ==> EndOk(s.q.ledger.ended[id], s.readMarks)
  }

  ghost predicate LifeOk(s: State) {
    && HeldOk(s.q, s.held)
    && (!s.loaded ==> s.q == EMPTY && s.held == [] && !s.resumed)
    && (s.resumed ==> s.held == [])
  }

  ghost predicate Inv(s: State) {
    && QueueInv(s.q) && PcsOk(s) && PacersOk(s) && CallsOk(s) && StartsOk(s) && EndsOk(s) && LifeOk(s)
  }

  // ---- frames --------------------------------------------------------------------------

  ghost predicate MarksRise(m: map<Place, int>, m': map<Place, int>) {
    forall p :: Get(m, p, 0) <= Get(m', p, 0)
  }

  /** The item is live before and after, unchanged, and so is its account of executions. */
  ghost predicate Same(q: Queue, r: Queue, id: string) {
    && id in q.items && id in r.items && r.items[id] == q.items[id]
    && Get(r.ledger.runs, id, 0) == Get(q.ledger.runs, id, 0)
    && Get(r.ledger.stops, id, 0) == Get(q.ledger.stops, id, 0)
  }

  lemma PcFrame(q: Queue, r: Queue, m: map<Place, int>, m': map<Place, int>, o: map<Place, int>, o': map<Place, int>,
                kind: Kind, pc: Pc)
    requires PcOk(q, m, o, kind, pc)
    requires MarksRise(m, m') && MarksRise(o, o')
    requires forall id :: id in pc.Batch() ==> Same(q, r, id) && id in r.running
    requires forall id :: id in q.items ==> q.items[id].id == id
    ensures PcOk(r, m', o', kind, pc)
  {
    if !pc.Idle? {
      var first := pc.batch[0];
      assert first in pc.Batch();
      assert Same(q, r, first);
    }
  }

  /** An event that leaves every running item alone keeps every suspended worker consistent. */
  lemma PcsFrame(s: State, t: State)
    requires PcsOk(s) && IdsOk(s.q)
    requires t.pcs == s.pcs && t.q.running == s.q.running
    requires MarksRise(s.readMarks, t.readMarks) && MarksRise(s.ownRead, t.ownRead)
    requires forall id :: id in s.q.running ==> Same(s.q, t.q, id)
    ensures PcsOk(t)
  {
    forall k | k in t.pcs ensures PcOk(t.q, t.readMarks, t.ownRead, k, t.pcs[k]) {
      PcFrame(s.q, t.q, s.readMarks, t.readMarks, s.ownRead, t.ownRead, k, s.pcs[k]);
    }
  }

  /** An event of one worker moves that worker, and leaves the batches of the others alone. */
  lemma PcsMove(s: State, t: State, kind: Kind)
    requires PcsOk(s) && IdsOk(s.q) && kind in t.pcs
    requires t.pcs == s.pcs[kind := t.pcs[kind]]
    requires PcOk(t.q, t.readMarks, t.ownRead, kind, t.pcs[kind])
    requires MarksRise(s.readMarks, t.readMarks) && MarksRise(s.ownRead, t.ownRead)
    requires t.q.running == (s.q.running - SetOf(s.pcs[kind].Batch())) + SetOf(t.pcs[kind].Batch())
    requires forall id :: id in s.q.running && id !in s.pcs[kind].Batch() ==> Same(s.q, t.q, id)
    ensures PcsOk(t)
  {
    forall k | k in t.pcs ensures PcOk(t.q, t.readMarks, t.ownRead, k, t.pcs[k]) {
      if k != kind {
        forall id | id in s.pcs[k].Batch() ensures Same(s.q, t.q, id) && id in t.q.running {
          OtherBatch(s, k, kind, id);
        }
        PcFrame(s.q, t.q, s.readMarks, t.readMarks, s.ownRead, t.ownRead, k, s.pcs[k]);
      }
    }
    forall id | id in t.q.running
      ensures id in t.q.items && id in t.pcs[t.q.items[id].action].Batch()
    {
      if id in t.pcs[kind].Batch() {
        assert t.q.items[id].action == kind;
      } else {
        assert Same(s.q, t.q, id);
      }
    }
  }

  lemma OtherBatch(s: State, k: Kind, kind: Kind, id: string)
    requires PcsOk(s) && k != kind && k in s.pcs && kind in s.pcs && id in s.pcs[k].Batch()
    ensures id in s.q.running && id !in s.pcs[kind].Batch()
  {
    assert PcOk(s.q, s.readMarks, s.ownRead, k, s.pcs[k]);
    assert PcOk(s.q, s.readMarks, s.ownRead, kind, s.pcs[kind]);
  }

  /** What an event may do to the rest of the state without touching the workers. */
  lemma InvFrame(s: State, t: State)
    requires Inv(s) && QueueInv(t.q)
    requires t.pcs == s.pcs && t.q.running == s.q.running
    requires MarksRise(s.readMarks, t.readMarks) && t.ownRead == s.ownRead
    requires forall id :: id in s.q.running ==> Same(s.q, t.q, id)
    requires t.calls == s.calls && t.starts == s.starts
    requires PacersOk(t) && EndsOk(t) && LifeOk(t)
    ensures Inv(t)
  {
    PcsFrame(s, t);
  }

  // ---- bus updates and commands -----------------------------------------------------------

  lemma MarkRaised(m: map<Place, int>, p: Place, v: int)
    ensures MarksRise(m, m[p := Max(Get(m, p, 0), v)])
  {
  }

  lemma EndsStay(s: State, t: State)
    requires EndsOk(s) && t.q.ledger.ended == s.q.ledger.ended && MarksRise(s.readMarks, t.readMarks)
    ensures EndsOk(t)
  {
  }

  lemma RaiseKeeps(s: State, place: Place, maxId: int)
    requires Inv(s)
    ensures Inv(s.(readMarks := s.readMarks[place := Max(Get(s.readMarks, place, 0), maxId)]))
  {
    var t := s.(readMarks := s.readMarks[place := Max(Get(s.readMarks, place, 0), maxId)]);
    MarkRaised(s.readMarks, place, maxId);
    EndsStay(s, t);
    PcsFrame(s, t);
  }

  /** Dropping pending items keeps everything, as long as a read counted done has been read. */
  lemma DropKeeps(s: State, drops: seq<string>, outcome: Outcome)
    requires Inv(s) && Distinct(drops) && SetOf(drops) <= s.q.items.Keys - s.q.running
    requires s.loaded
    requires forall id :: id in SetOf(drops) ==> EndOk(End(s.q.items[id], outcome), s.readMarks)
    ensures Inv(s.(q := AllFinished(s.q, drops, outcome)))
    ensures Dropped(s.q, SetOf(drops), outcome, AllFinished(s.q, drops, outcome))
  {
    var t := s.(q := AllFinished(s.q, drops, outcome));
    AllFinishedKeeps(s.q, drops, outcome);
    InvFrame(s, t);
  }

  lemma EnumerationIsSet(ids: seq<string>, s: set<string>)
    requires Enumerates(ids, s)
    ensures SetOf(ids) == s
  {
  }

  lemma UnloadedIsEmpty(s: State, drops: seq<string>, all: set<string>)
    requires Inv(s) && Enumerates(drops, all) && all <= s.q.items.Keys
    ensures !s.loaded ==> drops == []
  {
    if drops != [] {
      assert drops[0] in drops;
      assert drops[0] in s.q.items.Keys;
    }
  }

  lemma ExternalReadKeeps(s: State, place: Place, maxId: int, drops: seq<string>)
    requires Inv(s) && EnabledOutside(s, ExternalRead(place, maxId, drops))
    ensures Inv(NextOutside(s, ExternalRead(place, maxId, drops)))
  {
    var r := s.(readMarks := s.readMarks[place := Max(Get(s.readMarks, place, 0), maxId)]);
    RaiseKeeps(s, place, maxId);
    EnumerationIsSet(drops, ReadTakeover(s, place, maxId));
    UnloadedIsEmpty(s, drops, ReadTakeover(s, place, maxId));
    if s.loaded { DropKeeps(r, drops, Superseded); }
  }

  lemma OutgoingKeeps(s: State, chatId: int, msgId: int, drops: seq<string>)
    requires Inv(s) && EnabledOutside(s, Outgoing(chatId, msgId, drops))
    ensures Inv(NextOutside(s, Outgoing(chatId, msgId, drops)))
  {
    EnumerationIsSet(drops, SendTakeover(s, chatId, msgId));
    UnloadedIsEmpty(s, drops, SendTakeover(s, chatId, msgId));
    if s.loaded { DropKeeps(s, drops, Superseded); }
  }

  lemma DoomKeeps(s: State, ids: set<string>)
    requires Inv(s) && ids <= s.q.running
    ensures Inv(s.(q := Doomed(s.q, ids)))
  {
    var t := s.(q := Doomed(s.q, ids));
    DoomedKeeps(s.q, ids);
    if !s.loaded { assert ids == {}; assert t.q == s.q; }
    InvFrame(s, t);
  }

  lemma CancelKeeps(s: State, sel: Selector, drops: seq<string>)
    requires Inv(s) && EnabledOutside(s, CancelItems(sel, drops))
    ensures Inv(NextOutside(s, CancelItems(sel, drops)))
  {
    var t := s.(q := Doomed(s.q, ToDoom(s.q, sel)));
    DoomKeeps(s, ToDoom(s.q, sel));
    EnumerationIsSet(drops, ToCancel(s.q, sel));
    UnloadedIsEmpty(s, drops, ToCancel(s.q, sel));
    if s.loaded { DropKeeps(t, drops, Superseded); }
  }

  lemma ForgetKeeps(s: State, job: string)
    requires Inv(s) && s.loaded
    ensures Inv(s.(q := Forgotten(s.q, job)))
  {
    ForgottenKeeps(s.q, job);
    InvFrame(s, s.(q := Forgotten(s.q, job)));
  }

  lemma ReconfiguredKeeps(s: State, rules: map<Kind, Pacing.Rule>)
    requires PacersOk(s) && forall k :: k in rules ==> rules[k].every >= 0.0
    ensures PacersOk(s.(pacers := Reconfigured(s.pacers, rules)))
  {
    var t := Reconfigured(s.pacers, rules);
    forall k | k in t ensures Pacing.Valid(t[k]) && t[k].log.seen <= s.now {
      var rule := if k in rules then rules[k] else DefaultRule(k);
      assert t[k] == s.pacers[k].(rule := rule);
      Pacing.ConfiguredKeeps(s.pacers[k], rule);
    }
    assert Full(t) by {
      forall k: Kind ensures k in t { assert k in s.pacers; }
    }
  }

  lemma ConfigureKeeps(s: State, rules: map<Kind, Pacing.Rule>, expire: map<Kind, Option<real>>)
    requires Inv(s) && forall k :: k in rules ==> rules[k].every >= 0.0
    ensures Inv(s.(pacers := Reconfigured(s.pacers, rules), expire := expire))
  {
    ReconfiguredKeeps(s, rules);
    InvFrame(s, s.(pacers := Reconfigured(s.pacers, rules), expire := expire));
  }

  lemma PreloadedKeeps(file: File)
    ensures QueueInv(EMPTY.(recent := Preloaded(file)))
  {
    WithKeysDistinct([], LoadedRecent(file));
    WithKeysDistinct(WithKeys([], LoadedRecent(file)), KeysOf(LoadedItems(file)));
    SameItemsBalance(EMPTY, EMPTY.(recent := Preloaded(file)));
  }

  lemma LoadedAreHeld(q: Queue, file: File)
    requires q.ledger.used == {}
    requires forall i, j :: 0 <= i < j < |file.items| ==> file.items[i].Id() != file.items[j].Id()
    ensures HeldOk(q, LoadedItems(file))
  {
  }

  lemma PreloadKeeps(s: State, file: File)
    requires Inv(s) && !s.loaded
    requires forall i, j :: 0 <= i < j < |file.items| ==> file.items[i].Id() != file.items[j].Id()
    ensures Inv(s.(loaded := true, held := LoadedItems(file), q := s.q.(recent := Preloaded(file))))
  {
    var t := s.(loaded := true, held := LoadedItems(file), q := s.q.(recent := Preloaded(file)));
    assert s.q == EMPTY;
    PreloadedKeeps(file);
    LoadedAreHeld(t.q, file);
    PcsFrame(s, t);
  }

  lemma ResumeKeeps(s: State, active: set<string>)
    requires Inv(s) && s.loaded
    ensures Inv(s.(resumed := true, held := [], q := Resumed(s.q, s.held, active)))
  {
    var t := s.(resumed := true, held := [], q := Resumed(s.q, s.held, active));
    ResumedKeeps(s.q, s.held, active);
    InvFrame(s, t);
  }

  lemma TallyKeeps(s: State, slot: Slot, action: Kind, outcome: Outcome)
    requires Inv(s) && s.loaded
    ensures Inv(s.(q := Tallied(s.q, slot, action, outcome)))
  {
    var t := s.(q := Tallied(s.q, slot, action, outcome));
    TalliedKeeps(s.q, slot, action, outcome);
    InvFrame(s, t);
  }

  /** Editing a pending item in place, without giving it budget back. */
  lemma EditPendingKeeps(s: State, item: PendingItem)
    requires Inv(s) && s.loaded && IsLive(s.q, item) && item.id !in s.q.running
    requires Budget(item) <= Budget(s.q.items[item.id])
    ensures Inv(s.(q := Edited(s.q, item)))
  {
    var t := s.(q := Edited(s.q, item));
    EditedKeeps(s.q, item);
    InvFrame(s, t);
  }

  lemma InsertKeeps(s: State, item: PendingItem)
    requires Inv(s) && s.loaded && Queues.Fresh(s.q, item) && item.id !in IdsOf(s.held)
    ensures Inv(s.(q := Inserted(s.q, item)))
  {
    var t := s.(q := Inserted(s.q, item));
    InsertedKeeps(s.q, item);
    InvFrame(s, t);
  }

  /** The album memory has no part in the invariant. */
  lemma AlbumsAreFree(s: State, albums: map<Album, Memo>, order: seq<Album>)
    requires Inv(s)
    ensures Inv(s.(albums := albums, albumOrder := order))
  {
    InvFrame(s, s.(albums := albums, albumOrder := order));
  }

  lemma CaptionKeeps(s: State, id: string, msgId: int, slot: Slot, action: Kind)
    requires Inv(s) && s.loaded && Pending(s.q, id)
    ensures Inv(s.(q := Tallied(CaptionMoved(s.q, id, msgId), slot, action, Skipped)))
  {
    EditPendingKeeps(s, s.q.items[id].(msgId := msgId));
    TallyKeeps(s.(q := CaptionMoved(s.q, id, msgId)), slot, action, Skipped);
  }

  lemma CaptionJoinKeeps(s: State, item: PendingItem, album: Album, hasCaption: bool)
    requires Inv(s) && s.loaded && album in s.albums && MovesToCaption(s, s.albums[album], hasCaption)
    ensures Inv(JoinedAlbum(s, item, album, hasCaption))
  {
    var id := s.albums[album].itemId.value;
    var t := s.(q := Tallied(CaptionMoved(s.q, id, item.msgId), SlotOf(item), item.action, Skipped));
    assert Inv(t) by { CaptionKeeps(s, id, item.msgId, SlotOf(item), item.action); }
    AlbumsAreFree(t, s.albums[album := s.albums[album].(hasCaption := true)], s.albumOrder);
  }

  lemma JoinKeeps(s: State, item: PendingItem, album: Album, hasCaption: bool)
    requires Inv(s) && s.loaded && album in s.albums
    ensures Inv(JoinedAlbum(s, item, album, hasCaption))
  {
    if MovesToCaption(s, s.albums[album], hasCaption) {
      CaptionJoinKeeps(s, item, album, hasCaption);
    } else {
      TallyKeeps(s, SlotOf(item), item.action, Skipped);
    }
  }

  lemma EnqueueKeeps(s: State, item: PendingItem, album: Option<Album>, hasCaption: bool)
    requires Inv(s) && s.loaded && Queues.Fresh(s.q, item) && item.id !in IdsOf(s.held)
    ensures Inv(Enqueued(s, item, album, hasCaption))
  {
    var t := Enqueued(s, item, album, hasCaption);
    assert Inv(s.(q := t.q)) by { InsertKeeps(s, item); }
    AlbumsAreFree(s.(q := t.q), t.albums, t.albumOrder);
  }

  lemma SubmitKeeps(s: State, item: PendingItem, album: Option<Album>, hasCaption: bool)
    requires Inv(s) && s.loaded && item.id !in s.q.ledger.used && item.id !in IdsOf(s.held)
    ensures Inv(Submitted(s, item, album, hasCaption))
  {
    SubmittedByAnswer(s, item, album, hasCaption);
    match SubmitAnswer(s, item, album)
    case Duplicate =>
    case AlbumMember => JoinKeeps(s, item, album.value, hasCaption);
    case Full => TallyKeeps(s, SlotOf(item), item.action, Errors);
    case Scheduled => EnqueueKeeps(s, item, album, hasCaption);
  }

  // ---- settling an execution -----------------------------------------------------------------

  /** What one settled item may look like: gone with an outcome the verdict allows, or back in the queue.
      An item cancelled while it ran is never put back. */
  ghost predicate SettledItem(q: Queue, id: string, verdict: Verdict, r: Queue) {
    && id in q.items
    && id !in r.running
    && (id in q.cancelled ==> id !in r.items)
    && (id in r.items ==> id !in r.ledger.ended && SameWork(r.items[id], q.items[id]))
    && (id !in r.items ==>
          && id in r.ledger.ended && SameWork(r.ledger.ended[id].item, q.items[id])
          && (r.ledger.ended[id].outcome == Done ==> verdict == Ok && r.ledger.ended[id].item == q.items[id])
          && (r.ledger.ended[id].outcome == Superseded <==> id in q.cancelled))
  }

  ghost predicate SettledAll(q: Queue, ids: set<string>, verdict: Verdict, r: Queue) {
    && ids <= q.items.Keys
    && r.running == q.running - ids
    && SameTally(q, r)
    && r.cancelled == q.cancelled - ids
    && (forall id :: id in q.items && id !in ids ==> id in r.items && r.items[id] == q.items[id])
    && (forall id :: id in r.items ==> id in q.items)
    && (forall id :: id in ids ==> SettledItem(q, id, verdict, r))
    && (forall id :: id in q.ledger.ended && id !in ids ==>
          id in r.ledger.ended && r.ledger.ended[id] == q.ledger.ended[id])
    && (forall id :: id in r.ledger.ended ==> id in q.ledger.ended || id in ids)
  }

  /** Whatever keeps an item in the queue has used up some of its budget. */
  lemma StayingIsPaid(q: Queue, id: string, verdict: Verdict, limit: nat, due: real)
    requires QueueInv(q) && id in q.running && limit <= PATIENT_RETRIES
    requires verdict.Later? ==> Paid(q, q.items[id])
    requires FateOf(Hit(q.items[id], verdict), verdict, id in q.cancelled, limit, due).Stays?
    ensures Paid(q, Hit(q.items[id], verdict))
  {
    var item := q.items[id];
    var hit := Hit(item, verdict);
    assert item.id == id;
    assert verdict.Flood? || verdict.Transient? ==> Budget(hit) < Budget(item);
  }

  lemma SettledOneKeeps(q: Queue, id: string, verdict: Verdict, limit: nat, due: real)
    requires QueueInv(q) && id in q.running && limit <= PATIENT_RETRIES
    requires verdict.Later? ==> Paid(q, q.items[id])
    ensures QueueInv(SettledOne(q, id, verdict, limit, due))
  {
    var hit := Hit(q.items[id], verdict);
    match FateOf(hit, verdict, id in q.cancelled, limit, due)
    case Leaves(outcome) => FinishedKeeps(q, hit, outcome);
    case Stays(at) =>
      StayingIsPaid(q, id, verdict, limit, due);
      RequeuedKeeps(q, hit.(dueAt := at));
  }

  lemma LeavingEffect(q: Queue, hit: PendingItem, verdict: Verdict, outcome: Outcome)
    requires hit.id in q.items && SameWork(hit, q.items[hit.id]) && hit.id !in q.ledger.ended
    requires outcome == Done ==> verdict == Ok && hit == q.items[hit.id]
    requires outcome == Superseded <==> hit.id in q.cancelled
    ensures SettledAll(q, {hit.id}, verdict, Finished(q, hit, outcome))
  {
    FinishedEffect(q, hit, outcome);
    assert SettledItem(q, hit.id, verdict, Finished(q, hit, outcome));
  }

  lemma StayingEffect(q: Queue, hit: PendingItem, verdict: Verdict)
    requires hit.id in q.items && SameWork(hit, q.items[hit.id]) && hit.id !in q.ledger.ended
    requires hit.id !in q.cancelled
    ensures SettledAll(q, {hit.id}, verdict, Requeued(q, hit))
  {
    assert SettledItem(q, hit.id, verdict, Requeued(q, hit));
  }

  lemma SettledOneEffect(q: Queue, id: string, verdict: Verdict, limit: nat, due: real)
    requires id in q.items && q.items[id].id == id && id !in q.ledger.ended
    ensures SettledAll(q, {id}, verdict, SettledOne(q, id, verdict, limit, due))
  {
    var hit := Hit(q.items[id], verdict);
    match FateOf(hit, verdict, id in q.cancelled, limit, due)
    case Leaves(outcome) => LeavingEffect(q, hit, verdict, outcome);
    case Stays(at) => StayingEffect(q, hit.(dueAt := at), verdict);
  }

  lemma SettledOneMore(q: Queue, ids: set<string>, id: string, verdict: Verdict, m: Queue, r: Queue)
    requires SettledAll(q, ids, verdict, m) && SettledAll(m, {id}, verdict, r)
    requires id in q.items && id !in ids
    ensures SettledAll(q, ids + {id}, verdict, r)
  {
    forall x | x in ids + {id} ensures SettledItem(q, x, verdict, r) { SettledStays(q, ids, id, verdict, m, r, x); }
  }

  lemma SettledStays(q: Queue, ids: set<string>, id: string, verdict: Verdict, m: Queue, r: Queue, x: string)
    requires SettledAll(q, ids, verdict, m) && SettledAll(m, {id}, verdict, r)
    requires id in q.items && id !in ids && x in ids + {id}
    ensures SettledItem(q, x, verdict, r)
  {
    if x in ids { assert SettledItem(q, x, verdict, m); } else { assert SettledItem(m, x, verdict, r); }
  }

  lemma {:induction false} SettledKeeps(q: Queue, ids: seq<string>, verdict: Verdict, limit: nat, dues: seq<real>)
    requires QueueInv(q) && Distinct(ids) && SetOf(ids) <= q.running && |dues| == |ids|
    requires limit <= PATIENT_RETRIES
    requires verdict.Later? ==> forall id :: id in ids ==> id in q.items && Paid(q, q.items[id])
    ensures QueueInv(Settled(q, ids, verdict, limit, dues))
    ensures SettledAll(q, SetOf(ids), verdict, Settled(q, ids, verdict, limit, dues))
  {
    if ids != [] {
      var n := |ids| - 1;
      var id := ids[n];
      SetOfPrefix(ids);
      SettledKeeps(q, ids[..n], verdict, limit, dues[..n]);
      var m := Settled(q, ids[..n], verdict, limit, dues[..n]);
      assert id !in SetOf(ids[..n]);
      assert id in ids && id in q.items && m.items[id] == q.items[id];
      SettledOneKeeps(m, id, verdict, limit, dues[n]);
      SettledOneEffect(m, id, verdict, limit, dues[n]);
      SettledOneMore(q, SetOf(ids[..n]), id, verdict, m, SettledOne(m, id, verdict, limit, dues[n]));
    }
  }

  /** The state with the batch of `kind` settled and its worker idle; the pacer is still to be penalized. */
  function SettledQueue(s: State, kind: Kind, verdict: Verdict, dues: seq<real>): State
    requires kind in s.pcs && |dues| == |s.pcs[kind].Batch()|
  {
    s.(q := Settled(s.q, s.pcs[kind].Batch(), verdict, RetryLimit(s, kind), dues), pcs := s.pcs[kind := Idle])
  }

  ghost predicate MaySettle(s: State, kind: Kind, verdict: Verdict) {
    && kind in s.pcs && !s.pcs[kind].Idle?
    && (verdict.Failing() || (s.pcs[kind].Closing? && verdict == s.pcs[kind].verdict))
  }

  lemma SettledQueueEffect(s: State, kind: Kind, verdict: Verdict, dues: seq<real>)
    requires Inv(s) && MaySettle(s, kind, verdict) && |dues| == |s.pcs[kind].Batch()|
    ensures var t := SettledQueue(s, kind, verdict, dues);
      QueueInv(t.q) && SettledAll(s.q, SetOf(s.pcs[kind].batch), verdict, t.q)
  {
    var batch := s.pcs[kind].batch;
    assert PcOk(s.q, s.readMarks, s.ownRead, kind, s.pcs[kind]);
    if verdict.Later? { assert batch == [batch[0]]; }
    SettledKeeps(s.q, batch, verdict, RetryLimit(s, kind), dues);
  }

  lemma SettledPcs(s: State, kind: Kind, verdict: Verdict, t: State)
    requires PcsOk(s) && IdsOk(s.q) && kind in s.pcs && !s.pcs[kind].Idle?
    requires SettledAll(s.q, SetOf(s.pcs[kind].batch), verdict, t.q)
    requires t.pcs == s.pcs[kind := Idle] && t.readMarks == s.readMarks && t.ownRead == s.ownRead
    ensures PcsOk(t)
  {
    PcsMove(s, t, kind);
  }

  lemma SettledQueueKeeps(s: State, kind: Kind, verdict: Verdict, dues: seq<real>)
    requires Inv(s) && MaySettle(s, kind, verdict) && |dues| == |s.pcs[kind].Batch()|
    ensures Inv(SettledQueue(s, kind, verdict, dues))
  {
    var t := SettledQueue(s, kind, verdict, dues);
    SettledQueueEffect(s, kind, verdict, dues);
    SettledPcs(s, kind, verdict, t);
    SettledEnds(s, kind, verdict, t.q);
    LoadedIfRunning(s, kind);
  }

  /** Changing a pacer in a way that keeps it valid keeps everything else. */
  lemma PacerKeeps(s: State, kind: Kind, p: Pacing.PacerState, now: real)
    requires Inv(s) && Pacing.Valid(p) && p.log.seen <= now && s.now <= now
    ensures Inv(s.(pacers := s.pacers[kind := p], now := now))
  {
    InvFrame(s, s.(pacers := s.pacers[kind := p], now := now));
  }

  /** After its execution a batch has left or is back in the queue, and its worker is idle. */
  lemma SettleKeeps(s: State, kind: Kind, verdict: Verdict, dues: seq<real>)
    requires Inv(s) && MaySettle(s, kind, verdict) && |dues| == |s.pcs[kind].Batch()|
    requires kind in s.pacers
    ensures Inv(SettledState(s, kind, s.pcs[kind].batch, verdict, dues))
  {
    SettledQueueKeeps(s, kind, verdict, dues);
    if verdict.Flood? {
      Pacing.PenalizedKeeps(s.pacers[kind], s.now, verdict.wait);
      PacerKeeps(SettledQueue(s, kind, verdict, dues), kind,
                 Pacing.Penalized(s.pacers[kind], s.now, verdict.wait), s.now);
    }
  }

  lemma LoadedIfRunning(s: State, kind: Kind)
    requires Inv(s) && kind in s.pcs && !s.pcs[kind].Idle?
    ensures s.loaded
  {
    assert PcOk(s.q, s.readMarks, s.ownRead, kind, s.pcs[kind]);
    assert s.pcs[kind].batch[0] in s.q.items;
  }

  lemma SettledEnds(s: State, kind: Kind, verdict: Verdict, r: Queue)
    requires Inv(s) && kind in s.pcs && !s.pcs[kind].Idle?
    requires verdict.Failing() || (s.pcs[kind].Closing? && verdict == s.pcs[kind].verdict)
    requires SettledAll(s.q, SetOf(s.pcs[kind].batch), verdict, r)
    ensures forall id :: id in r.ledger.ended ==> EndOk(r.ledger.ended[id], s.readMarks)
  {
    var batch := s.pcs[kind].batch;
    assert PcOk(s.q, s.readMarks, s.ownRead, kind, s.pcs[kind]);
    forall id | id in r.ledger.ended ensures EndOk(r.ledger.ended[id], s.readMarks) {
      if id in SetOf(batch) {
        assert SettledItem(s.q, id, verdict, r);
        assert BatchKeyOf(s.q.items[id]) == BatchKeyOf(s.q.items[batch[0]]);
      }
    }
  }

  // ---- the stretches of a worker ---------------------------------------------------------------

  lemma ExpireKeeps(s: State, head: string)
    requires Inv(s) && Pending(s.q, head)
    ensures Inv(s.(q := Finished(s.q, s.q.items[head], Expired)))
  {
    var t := s.(q := Finished(s.q, s.q.items[head], Expired));
    FinishedKeeps(s.q, s.q.items[head], Expired);
    FinishedEffect(s.q, s.q.items[head], Expired);
    assert s.q != EMPTY;
    InvFrame(s, t);
  }

  lemma LoadedIfPending(s: State, id: string)
    requires Inv(s) && id in s.q.items
    ensures s.loaded
  {
  }

  /** The batch rule is the start guard. */
  lemma BatchStarts(s: State, head: string, batch: seq<string>)
    requires IsBatch(s.q, head, batch, s.now)
    ensures StartOk(Startup(s.now, s.q.items[head], ItemsAt(s.q, batch)))
    ensures forall id :: id in batch ==> s.q.items[id].dryRun == s.q.items[head].dryRun
  {
    var items := ItemsAt(s.q, batch);
    var i :| 0 <= i < |batch| && batch[i] == head;
    assert items[i] == s.q.items[head];
    forall id | id in batch ensures s.q.items[id].dryRun == s.q.items[head].dryRun {
      assert Joins(s.q, s.q.items[head], s.now, id);
    }
    forall j | 0 <= j < |items|
      ensures && MayStart(items[j], s.now) && items[j].action == s.q.items[head].action
              && BatchKeyOf(items[j]) == BatchKeyOf(s.q.items[head])
              && items[j].dryRun == s.q.items[head].dryRun
    {
      assert Joins(s.q, s.q.items[head], s.now, batch[j]);
    }
  }

  lemma StartsGrow(s: State, st: Startup)
    requires Inv(s) && StartOk(st)
    ensures Inv(s.(starts := s.starts + [st]))
  {
    var t := s.(starts := s.starts + [st]);
    PcsFrame(s, t);
  }

  lemma BatchIsPending(q: Queue, head: string, batch: seq<string>, now: real)
    requires IsBatch(q, head, batch, now)
    ensures SetOf(batch) <= q.items.Keys - q.running
    ensures forall id :: id in batch ==> q.items[id].action == q.items[head].action
  {
    forall id | id in batch ensures Pending(q, id) && q.items[id].action == q.items[head].action {
      assert Joins(q, q.items[head], now, id);
    }
  }

  lemma RanDryKeepsQueue(s: State, kind: Kind, head: string, batch: seq<string>, dues: seq<real>)
    requires Inv(s) && IsBatch(s.q, head, batch, s.now) && |dues| == |batch|
    requires s.q.items[head].dryRun
    ensures Inv(s.(q := Settled(AllLaunched(s.q, batch), batch, Ok, RetryLimit(s, kind), dues)))
  {
    var l := AllLaunched(s.q, batch);
    var t := s.(q := Settled(l, batch, Ok, RetryLimit(s, kind), dues));
    BatchIsPending(s.q, head, batch, s.now);
    BatchStarts(s, head, batch);
    AllLaunchedKeeps(s.q, batch);
    SettledKeeps(l, batch, Ok, RetryLimit(s, kind), dues);
    forall id | id in t.q.ledger.ended ensures EndOk(t.q.ledger.ended[id], s.readMarks) {
      if id in SetOf(batch) { assert SettledItem(l, id, Ok, t.q); }
    }
    LoadedIfPending(s, head);
    InvFrame(s, t);
  }

  lemma RanDryKeeps(s: State, kind: Kind, head: string, batch: seq<string>, dues: seq<real>)
    requires Inv(s) && IsBatch(s.q, head, batch, s.now) && |dues| == |batch| && kind in s.pacers
    requires s.q.items[head].dryRun
    ensures Inv(RanDry(s, kind, head, batch, dues))
  {
    RanDryKeepsQueue(s, kind, head, batch, dues);
    BatchStarts(s, head, batch);
    StartsGrow(s.(q := Settled(AllLaunched(s.q, batch), batch, Ok, RetryLimit(s, kind), dues)),
               Startup(s.now, s.q.items[head], ItemsAt(s.q, batch)));
  }

  /** What launching a batch does besides moving its worker. */
  lemma LaunchedRest(s: State, head: string, batch: seq<string>, t: State)
    requires Inv(s) && IsBatch(s.q, head, batch, s.now) && t == s.(q := AllLaunched(s.q, batch), pcs := t.pcs)
    ensures QueueInv(t.q) && PacersOk(t) && CallsOk(t) && StartsOk(t) && EndsOk(t) && LifeOk(t)
    ensures t.q.items == s.q.items && t.q.running == s.q.running + SetOf(batch) && SetOf(batch) !! s.q.running
    ensures forall id :: id !in SetOf(batch) ==>
      && Get(t.q.ledger.runs, id, 0) == Get(s.q.ledger.runs, id, 0)
      && Get(t.q.ledger.stops, id, 0) == Get(s.q.ledger.stops, id, 0)
  {
    BatchIsPending(s.q, head, batch, s.now);
    AllLaunchedKeeps(s.q, batch);
    LoadedIfPending(s, head);
  }

  /** A batch of a kind whose worker was idle is taken up: the worker is in `presence.before`. */
  lemma OpenedKeeps(s: State, kind: Kind, head: string, batch: seq<string>)
    requires Inv(s) && IsBatch(s.q, head, batch, s.now)
    requires kind in s.pcs && s.pcs[kind].Idle? && s.q.items[head].action == kind && !s.q.items[head].dryRun
    ensures Inv(s.(q := AllLaunched(s.q, batch), pcs := s.pcs[kind := Opening(batch)]))
  {
    var t := s.(q := AllLaunched(s.q, batch), pcs := s.pcs[kind := Opening(batch)]);
    LaunchedRest(s, head, batch, t);
    assert BatchOk(t.q, kind, batch) by {
      BatchStarts(s, head, batch);
      OpenedBatch(s.q, t.q, kind, head, batch, s.now);
    }
    assert PcsOk(t) by { OpenedPcs(s, t, kind, batch); }
  }

  lemma OpenedPcs(s: State, t: State, kind: Kind, batch: seq<string>)
    requires PcsOk(s) && IdsOk(s.q) && kind in s.pcs && s.pcs[kind].Idle?
    requires t.pcs == s.pcs[kind := Opening(batch)] && BatchOk(t.q, kind, batch)
    requires t.readMarks == s.readMarks && t.ownRead == s.ownRead
    requires t.q.items == s.q.items && t.q.running == s.q.running + SetOf(batch) && SetOf(batch) !! s.q.running
    requires forall id :: id !in SetOf(batch) ==>
      && Get(t.q.ledger.runs, id, 0) == Get(s.q.ledger.runs, id, 0)
      && Get(t.q.ledger.stops, id, 0) == Get(s.q.ledger.stops, id, 0)
    ensures PcsOk(t)
  {
    forall id | id in s.q.running ensures Same(s.q, t.q, id) {
      assert id !in SetOf(batch);
    }
    PcsMove(s, t, kind);
  }

  lemma OpenedBatch(q: Queue, r: Queue, kind: Kind, head: string, batch: seq<string>, now: real)
    requires IsBatch(q, head, batch, now)
    requires q.items[head].action == kind && !q.items[head].dryRun
    requires r.items == q.items && SetOf(batch) <= r.running
    requires forall id :: id in batch ==> q.items[id].dryRun == q.items[head].dryRun
    ensures BatchOk(r, kind, batch)
  {
    assert batch[0] in batch;
    forall id | id in batch
      ensures && id in r.items && id in r.running && r.items[id].action == kind && !r.items[id].dryRun
              && BatchKeyOf(r.items[id]) == BatchKeyOf(r.items[batch[0]])
    {
      assert id in SetOf(batch);
      assert Joins(q, q.items[head], now, id) && Joins(q, q.items[head], now, batch[0]);
    }
  }

  lemma RanKeeps(s: State, kind: Kind, head: string, batch: seq<string>, jitter: real)
    requires Inv(s) && IsBatch(s.q, head, batch, s.now)
    requires kind in s.pcs && s.pcs[kind].Idle? && s.q.items[head].action == kind && !s.q.items[head].dryRun
    requires kind in s.pacers && Pacing.Jitter(jitter)
    requires Pacing.Wait(Pacing.Looked(s.pacers[kind], s.now), s.now) <= 0.0
    ensures Inv(Ran(s, kind, head, batch, jitter))
  {
    var looked := Pacing.Looked(s.pacers[kind], s.now);
    SlotIsTaken(s.pacers[kind], s.now, s.now, jitter);
    OpenedKeeps(s, kind, head, batch);
    BatchStarts(s, head, batch);
    var t := s.(q := AllLaunched(s.q, batch), pcs := s.pcs[kind := Opening(batch)]);
    PacerKeeps(t, kind, Pacing.Consumed(looked, s.now, jitter), s.now);
    StartsGrow(t.(pacers := t.pacers[kind := Pacing.Consumed(looked, s.now, jitter)]),
               Startup(s.now, s.q.items[head], ItemsAt(s.q, batch)));
  }

  lemma StepKeeps(s: State, kind: Kind, head: string, choice: Choice)
    requires Inv(s) && EnabledWorker(s, Step(kind, head, choice))
    ensures Inv(Stepped(s, kind, head, choice))
  {
    LoadedIfPending(s, head);
    match choice
    case Expire => ExpireKeeps(s, head);
    case Hold(due) => EditPendingKeeps(s, s.q.items[head].(dueAt := due));
    case TooSoon =>
      Pacing.LookedKeeps(s.pacers[kind], s.now);
      PacerKeeps(s, kind, Pacing.Looked(s.pacers[kind], s.now), s.now);
    case RunDry(batch, dues) => RanDryKeeps(s, kind, head, batch, dues);
    case Run(batch, jitter) => RanKeeps(s, kind, head, batch, jitter);
  }

  /** A worker moves on with the same batch, announcing a read and issuing a request if it does. */
  lemma MoveKeeps(s: State, kind: Kind, pc: Pc, own: map<Place, int>, calls: seq<Call>)
    requires Inv(s) && kind in s.pcs && !s.pcs[kind].Idle?
    requires pc.Batch() == s.pcs[kind].Batch()
    requires MarksRise(s.ownRead, own)
    requires PcOk(s.q, s.readMarks, own, kind, pc)
    requires forall i :: 0 <= i < |calls| ==> CallOk(calls[i], own)
    ensures Inv(s.(pcs := s.pcs[kind := pc], ownRead := own, calls := s.calls + calls))
  {
    var t := s.(pcs := s.pcs[kind := pc], ownRead := own, calls := s.calls + calls);
    assert PcOk(s.q, s.readMarks, s.ownRead, kind, s.pcs[kind]);
    PcsMove(s, t, kind);
    forall i | 0 <= i < |t.calls| ensures CallOk(t.calls[i], own) {
      if i < |s.calls| { assert CallOk(s.calls[i], s.ownRead); }
      else { assert t.calls[i] == calls[i - |s.calls|]; }
    }
  }

  lemma ReadIssuedKeeps(s: State, kind: Kind, batch: seq<string>, target: int, items: seq<PendingItem>)
    requires Inv(s) && kind in {React, Read} && kind in s.pcs && !s.pcs[kind].Idle?
    requires batch == s.pcs[kind].batch && batch != [] && batch[0] in s.q.items
    requires AllAtOrBelow(s.q, batch, target)
    requires kind == React ==> target == s.q.items[batch[0]].msgId
    requires forall i :: 0 <= i < |items| ==> !items[i].dryRun
    ensures Inv(ReadIssued(s, kind, batch, PlaceOf(s.q.items[batch[0]]), target, items))
  {
    var place := PlaceOf(s.q.items[batch[0]]);
    var own := s.ownRead[place := Max(Get(s.ownRead, place, 0), target)];
    MarkRaised(s.ownRead, place, target);
    assert PcOk(s.q, s.readMarks, s.ownRead, kind, s.pcs[kind]);
    MoveKeeps(s, kind, Reading(batch, target), own, [Call(ReadFor(kind, place, target, items), items)]);
  }

  /** The sweep of `ensure_read` counts as done only reads at or below the mark. */
  lemma SweepKeeps(s: State, place: Place, target: int, sweep: seq<string>)
    requires Inv(s) && s.loaded && target <= Get(s.readMarks, place, 0)
    requires SweepOk(s, place, target, sweep)
    ensures Inv(s.(q := AllFinished(s.q, sweep, Done)))
    ensures Dropped(s.q, SatisfiedReads(s.q, place, target), Done, AllFinished(s.q, sweep, Done))
  {
    EnumerationIsSet(sweep, SatisfiedReads(s.q, place, target));
    DropKeeps(s, sweep, Done);
  }

  lemma ReactionCallKeeps(s: State, batch: seq<string>, item: PendingItem, mark: int)
    requires Inv(s) && React in s.pcs && !s.pcs[React].Idle?
    requires batch == s.pcs[React].batch && batch != [] && batch[0] in s.q.items && item == s.q.items[batch[0]]
    requires item.msgId <= mark && mark == Get(s.readMarks, PlaceOf(item), 0)
    ensures Inv(Called(s.(pcs := s.pcs[React := Acting(batch)]), ReactionOp(PlaceOf(item), item.msgId, mark), [item]))
  {
    assert PcOk(s.q, s.readMarks, s.ownRead, React, s.pcs[React]);
    MoveKeeps(s, React, Acting(batch), s.ownRead, [Call(ReactionOp(PlaceOf(item), item.msgId, mark), [item])]);
  }

  /** In front of `reaction.add`: the chat is read up to the message. */
  lemma ReactIssuedKeeps(s: State, batch: seq<string>, sweep: seq<string>)
    requires Inv(s) && React in s.pcs && !s.pcs[React].Idle?
    requires batch == s.pcs[React].batch && batch != [] && batch[0] in s.q.items
    requires s.q.items[batch[0]].msgId <= Get(s.readMarks, PlaceOf(s.q.items[batch[0]]), 0)
    requires SweepOk(s, PlaceOf(s.q.items[batch[0]]), s.q.items[batch[0]].msgId, sweep)
    ensures Inv(ReactIssued(s, batch, s.q.items[batch[0]], sweep))
  {
    var item := s.q.items[batch[0]];
    LoadedIfRunning(s, React);
    SweepKeeps(s, PlaceOf(item), item.msgId, sweep);
    assert batch[0] in s.q.running by {
      assert PcOk(s.q, s.readMarks, s.ownRead, React, s.pcs[React]);
    }
    ReactionCallKeeps(s.(q := AllFinished(s.q, sweep, Done)), batch, item, Get(s.readMarks, PlaceOf(item), 0));
  }

  lemma ReactBatchIsOne(s: State)
    requires PcsOk(s) && React in s.pcs && !s.pcs[React].Idle?
    ensures s.pcs[React].batch == [s.pcs[React].batch[0]] && s.pcs[React].batch[0] in s.q.items
  {
    assert PcOk(s.q, s.readMarks, s.ownRead, React, s.pcs[React]);
  }

  lemma SlotIsTaken(p: Pacing.PacerState, now: real, later: real, jitter: real)
    requires Pacing.Valid(p) && p.log.seen <= now <= later && Pacing.Jitter(jitter)
    requires Pacing.Wait(Pacing.Looked(p, now), now) <= 0.0
    ensures var r := Pacing.Consumed(Pacing.Looked(p, now), later, jitter); Pacing.Valid(r) && r.log.seen <= later
  {
    Pacing.LookedKeeps(p, now);
    Pacing.ZeroWaitIsOpen(p, now, later);
    Pacing.ConsumedKeeps(Pacing.Looked(p, now), later, jitter);
  }

  lemma ReadSlotKeeps(s: State, batch: seq<string>, later: real, jitter: real)
    requires Inv(s) && React in s.pcs && !s.pcs[React].Idle? && Read in s.pacers
    requires batch == s.pcs[React].batch && batch != [] && batch[0] in s.q.items
    requires s.now <= later && Pacing.Jitter(jitter)
    requires Pacing.Wait(Pacing.Looked(s.pacers[Read], s.now), s.now) <= 0.0
    ensures Inv(ReadPaced(s, batch, s.q.items[batch[0]], later, jitter))
  {
    var item := s.q.items[batch[0]];
    var p := Pacing.Consumed(Pacing.Looked(s.pacers[Read], s.now), later, jitter);
    assert AllAtOrBelow(s.q, batch, item.msgId) by { ReactBatchIsOne(s); }
    assert Pacing.Valid(p) && p.log.seen <= later by { SlotIsTaken(s.pacers[Read], s.now, later, jitter); }
    PacerKeeps(s, Read, p, later);
    ReadIssuedKeeps(s.(pacers := s.pacers[Read := p], now := later), React, batch, item.msgId, [item]);
  }

  lemma ReadPacedKeeps(s: State, batch: seq<string>, later: real, jitter: real)
    requires Inv(s) && React in s.pcs && !s.pcs[React].Idle? && Read in s.pacers
    requires batch == s.pcs[React].batch && batch != [] && batch[0] in s.q.items
    requires s.now <= later && Pacing.Jitter(jitter)
    ensures Inv(ReadPaced(s, batch, s.q.items[batch[0]], later, jitter))
  {
    if Pacing.Wait(Pacing.Looked(s.pacers[Read], s.now), s.now) > 0.0 {
      var looked := Pacing.Looked(s.pacers[Read], s.now);
      Pacing.LookedKeeps(s.pacers[Read], s.now);
      PacerKeeps(s, Read, looked, s.now);
      assert PcOk(s.q, s.readMarks, s.ownRead, React, s.pcs[React]);
      MoveKeeps(s.(pacers := s.pacers[Read := looked]), React, Pacing(batch), s.ownRead, []);
    } else {
      ReadSlotKeeps(s, batch, later, jitter);
    }
  }

  lemma {:induction false} HighestBounds(items: seq<PendingItem>)
    requires items != []
    ensures forall i :: 0 <= i < |items| ==> items[i].msgId <= Highest(items)
    ensures exists i :: 0 <= i < |items| && items[i].msgId == Highest(items)
  {
    if |items| > 1 {
      HighestBounds(items[..|items| - 1]);
      var i :| 0 <= i < |items| - 1 && items[..|items| - 1][i].msgId == Highest(items[..|items| - 1]);
      assert items[i].msgId == Highest(items[..|items| - 1]);
      assert items[if items[i].msgId < items[|items| - 1].msgId then |items| - 1 else i].msgId == Highest(items);
    } else {
      assert items[0].msgId == Highest(items);
    }
  }

  lemma BatchIsBelowHighest(q: Queue, batch: seq<string>)
    requires batch != [] && forall id :: id in batch ==> id in q.items
    ensures AllAtOrBelow(q, batch, Highest(ItemsAt(q, batch)))
  {
    var items := ItemsAt(q, batch);
    HighestBounds(items);
    forall id | id in batch ensures q.items[id].msgId <= Highest(items) {
      var i :| 0 <= i < |batch| && batch[i] == id;
      assert items[i] == q.items[id];
    }
  }

  lemma ReadBeginKeeps(s: State)
    requires Inv(s) && BatchLive(s, Read) && s.pcs[Read].Opening?
    ensures Inv(ReadBegun(s, s.pcs[Read].batch, ItemsAt(s.q, s.pcs[Read].batch)))
  {
    var batch := s.pcs[Read].batch;
    var items := ItemsAt(s.q, batch);
    assert PcOk(s.q, s.readMarks, s.ownRead, Read, s.pcs[Read]);
    BatchIsBelowHighest(s.q, batch);
    forall i | 0 <= i < |items| ensures !items[i].dryRun { assert batch[i] in batch; }
    var item := items[0];
    if Get(s.readMarks, PlaceOf(item), 0) >= Highest(items) && !AnyBadge(items) {
      MoveKeeps(s, Read, Closing(batch, Ok), s.ownRead, []);
    } else {
      ReadIssuedKeeps(s, Read, batch, Highest(items), items);
    }
  }

  lemma ViewBeginKeeps(s: State)
    requires Inv(s) && BatchLive(s, View) && s.pcs[View].Opening?
    ensures Inv(ViewBegun(s, s.pcs[View].batch, ItemsAt(s.q, s.pcs[View].batch)))
  {
    var batch := s.pcs[View].batch;
    var items := ItemsAt(s.q, batch);
    assert PcOk(s.q, s.readMarks, s.ownRead, View, s.pcs[View]);
    IdsAreFew(items);
    forall i | 0 <= i < |items| ensures !items[i].dryRun { assert batch[i] in batch; }
    MoveKeeps(s, View, Acting(batch), s.ownRead,
              [Call(ViewOp(items[0].chatId, items[0].payload.mode, Cut(Ids(items), MAX_BATCH)), items)]);
  }

  /** A batch of at most a hundred names at most a hundred ids, so the cut drops none. */
  lemma {:induction false} IdsAreFew(items: seq<PendingItem>)
    ensures |Ids(items)| <= |items|
  {
    if items != [] {
      var front := items[..|items| - 1];
      IdsAreFew(front);
      var last := items[|items| - 1].msgId;
      forall x | x in Ids(items) ensures x in Ids(front) + {last} {
        var i :| 0 <= i < |items| && items[i].msgId == x;
        if i < |front| { assert front[i].msgId == x; }
      }
      assert Ids(items) <= Ids(front) + {last};
      CardOfSubset(Ids(items), Ids(front) + {last});
    } else {
      assert Ids(items) == {};
    }
  }

  lemma CardOfSubset<T>(a: set<T>, b: set<T>)
    requires a <= b
    ensures |a| <= |b|
  {
    assert b == a + (b - a);
  }

  lemma ForwardBeginKeeps(s: State)
    requires Inv(s) && BatchLive(s, Forward) && s.pcs[Forward].Opening?
    ensures Inv(Begun(s, Forward, s.now, 1.0, []))
  {
    var batch := s.pcs[Forward].batch;
    var item := s.q.items[batch[0]];
    assert PcOk(s.q, s.readMarks, s.ownRead, Forward, s.pcs[Forward]);
    MoveKeeps(s, Forward, Acting(batch), s.ownRead, [Call(ForwardOp(item.chatId, item.msgId, item.payload.to), [item])]);
  }

  /** When tlgr last sent has no part in the invariant. */
  lemma SendsAreFree(s: State, sent: map<int, seq<int>>, at: map<int, real>)
    requires Inv(s)
    ensures Inv(s.(ownSent := sent, ownSendAt := at))
  {
    InvFrame(s, s.(ownSent := sent, ownSendAt := at));
  }

  /** Moving a reply to its sending phase pays for putting it back. */
  lemma TypingPays(q: Queue, item: PendingItem)
    requires QueueInv(q) && item.id in q.running && q.items[item.id] == item && item.phase == Start
    ensures var sending := item.(phase := Send);
      QueueInv(Edited(q, sending)) && Paid(Edited(q, sending), sending)
  {
    EditedKeeps(q, item.(phase := Send));
  }

  lemma TypingKeeps(s: State, batch: seq<string>, item: PendingItem)
    requires Inv(s) && Reply in s.pcs && !s.pcs[Reply].Idle? && batch == s.pcs[Reply].batch
    requires batch != [] && batch[0] in s.q.items && item == s.q.items[batch[0]] && item.phase == Start
    ensures Inv(TypingBegun(s, batch, item))
  {
    var t := TypingBegun(s, batch, item);
    assert PcOk(s.q, s.readMarks, s.ownRead, Reply, s.pcs[Reply]);
    assert batch == [item.id];
    TypingPays(s.q, item);
    TypingPcs(s, batch, item, item.(phase := Send), t);
    LoadedIfRunning(s, Reply);
  }

  lemma TypingPcs(s: State, batch: seq<string>, item: PendingItem, sending: PendingItem, t: State)
    requires PcsOk(s) && IdsOk(s.q) && Reply in s.pcs && !s.pcs[Reply].Idle? && s.pcs[Reply].batch == batch == [item.id]
    requires item.id in s.q.running && s.q.items[item.id] == item && sending == item.(phase := Send)
    requires t.q == Edited(s.q, sending) && Paid(t.q, sending)
    requires Reply in t.pcs && t.pcs == s.pcs[Reply := t.pcs[Reply]] && t.pcs[Reply].Closing?
    requires t.pcs[Reply].batch == batch && t.pcs[Reply].verdict.Later?
    requires t.readMarks == s.readMarks && t.ownRead == s.ownRead
    ensures PcsOk(t)
  {
    assert PcOk(s.q, s.readMarks, s.ownRead, Reply, s.pcs[Reply]);
    assert BatchOk(t.q, Reply, batch);
    PcsMove(s, t, Reply);
  }

  lemma SendBeginKeeps(s: State, batch: seq<string>, item: PendingItem)
    requires Inv(s) && Reply in s.pcs && !s.pcs[Reply].Idle? && batch == s.pcs[Reply].batch
    requires batch != [] && batch[0] in s.q.items && item == s.q.items[batch[0]] && !ShowsTyping(item)
    ensures Inv(ReplyBegun(s, batch, item))
  {
    assert PcOk(s.q, s.readMarks, s.ownRead, Reply, s.pcs[Reply]);
    MoveKeeps(s, Reply, Acting(batch), s.ownRead, [Call(SendOp(item.chatId, item.msgId), [item])]);
    SendsAreFree(Called(s.(pcs := s.pcs[Reply := Acting(batch)]), SendOp(item.chatId, item.msgId), [item]),
                 s.ownSent, s.ownSendAt[item.chatId := s.now]);
  }

  lemma CallKeeps(s: State, op: Op, items: seq<PendingItem>)
    requires Inv(s) && CallOk(Call(op, items), s.ownRead)
    ensures Inv(Called(s, op, items))
  {
    PcsFrame(s, Called(s, op, items));
  }

  lemma RunningIsNotDry(s: State, kind: Kind)
    requires Inv(s) && kind in s.pcs && !s.pcs[kind].Idle?
    ensures var batch := s.pcs[kind].batch;
      batch != [] && batch[0] in s.q.items && !s.q.items[batch[0]].dryRun
  {
    assert PcOk(s.q, s.readMarks, s.ownRead, kind, s.pcs[kind]);
  }

  lemma TypingBeginKeeps(s: State, batch: seq<string>, item: PendingItem)
    requires Inv(s) && Reply in s.pcs && !s.pcs[Reply].Idle? && batch == s.pcs[Reply].batch
    requires batch != [] && batch[0] in s.q.items && item == s.q.items[batch[0]] && ShowsTyping(item)
    ensures Inv(ReplyBegun(s, batch, item))
  {
    RunningIsNotDry(s, Reply);
    TypingKeeps(s, batch, item);
    CallKeeps(TypingBegun(s, batch, item), TypingOp(item.chatId, TypingSeconds(item)), [item]);
  }

  lemma ReplyBeginKeeps(s: State, batch: seq<string>)
    requires Inv(s) && Reply in s.pcs && !s.pcs[Reply].Idle? && batch == s.pcs[Reply].batch
    requires batch != [] && batch[0] in s.q.items
    ensures Inv(ReplyBegun(s, batch, s.q.items[batch[0]]))
  {
    if ShowsTyping(s.q.items[batch[0]]) {
      TypingBeginKeeps(s, batch, s.q.items[batch[0]]);
    } else {
      SendBeginKeeps(s, batch, s.q.items[batch[0]]);
    }
  }

  lemma ReactWaitKeeps(s: State, later: real, jitter: real, sweep: seq<string>)
    requires Inv(s) && BatchLive(s, React) && s.pcs[React].Opening? && s.now <= later && Pacing.Jitter(jitter)
    requires var item := s.q.items[s.pcs[React].batch[0]]; Get(s.readMarks, PlaceOf(item), 0) < item.msgId
    ensures Inv(ReactBegun(s, s.pcs[React].batch, s.q.items[s.pcs[React].batch[0]], later, jitter, sweep))
  {
    ReadPacedKeeps(s, s.pcs[React].batch, later, jitter);
  }

  lemma ReadyReactKeeps(s: State, later: real, jitter: real, sweep: seq<string>)
    requires Inv(s) && BatchLive(s, React) && s.pcs[React].Opening?
    requires var item := s.q.items[s.pcs[React].batch[0]];
      SweepOk(s, PlaceOf(item), item.msgId, sweep) && Get(s.readMarks, PlaceOf(item), 0) >= item.msgId
    ensures Inv(ReactBegun(s, s.pcs[React].batch, s.q.items[s.pcs[React].batch[0]], later, jitter, sweep))
  {
    ReactIssuedKeeps(s, s.pcs[React].batch, sweep);
  }

  lemma ReactBeginKeeps(s: State, later: real, jitter: real, sweep: seq<string>)
    requires Inv(s) && EnabledBegin(s, React, later, jitter, sweep)
    ensures Inv(ReactBegun(s, s.pcs[React].batch, s.q.items[s.pcs[React].batch[0]], later, jitter, sweep))
  {
    var item := s.q.items[s.pcs[React].batch[0]];
    if Get(s.readMarks, PlaceOf(item), 0) < item.msgId { ReactWaitKeeps(s, later, jitter, sweep); }
    else { ReadyReactKeeps(s, later, jitter, sweep); }
  }

  lemma BeginKeeps(s: State, kind: Kind, later: real, jitter: real, sweep: seq<string>)
    requires Inv(s) && EnabledWorker(s, Begin(kind, later, jitter, sweep))
    ensures Inv(Begun(s, kind, later, jitter, sweep))
  {
    match kind
    case React => ReactBeginKeeps(s, later, jitter, sweep);
    case Read => ReadBeginKeeps(s);
    case View => ViewBeginKeeps(s);
    case Forward => ForwardBeginKeeps(s);
    case Reply => ReplyBeginKeeps(s, s.pcs[Reply].batch);
  }

  /** A reaction's read has been answered: the mark is up, and the reaction may go out. */
  lemma ReactAnsweredKeeps(s: State, batch: seq<string>, sweep: seq<string>)
    requires Inv(s) && React in s.pcs && s.pcs[React].Reading? && batch == s.pcs[React].batch
    requires batch != [] && batch[0] in s.q.items
    requires SweepOk(s, PlaceOf(s.q.items[batch[0]]), s.q.items[batch[0]].msgId, sweep)
    ensures Inv(ReactIssued(Noted(s, PlaceOf(s.q.items[batch[0]]), s.q.items[batch[0]].msgId),
                            batch, s.q.items[batch[0]], sweep))
  {
    var item := s.q.items[batch[0]];
    RaiseKeeps(s, PlaceOf(item), item.msgId);
    ReactIssuedKeeps(Noted(s, PlaceOf(item), item.msgId), batch, sweep);
  }

  lemma ReadClosedKeeps(s: State, batch: seq<string>, target: int)
    requires Inv(s) && Read in s.pcs && s.pcs[Read] == Reading(batch, target)
    requires batch != [] && batch[0] in s.q.items && target <= Get(s.readMarks, PlaceOf(s.q.items[batch[0]]), 0)
    ensures Inv(s.(pcs := s.pcs[Read := Closing(batch, Ok)]))
  {
    assert PcOk(s.q, s.readMarks, s.ownRead, Read, Closing(batch, Ok)) by {
      assert PcOk(s.q, s.readMarks, s.ownRead, Read, s.pcs[Read]);
    }
    MoveKeeps(s, Read, Closing(batch, Ok), s.ownRead, []);
  }

  lemma ReadAnsweredKeeps(s: State, kind: Kind, sweep: seq<string>)
    requires Inv(s) && EnabledWorker(s, ReadDone(kind, sweep))
    ensures Inv(ReadAnswered(s, kind, s.pcs[kind].batch, s.q.items[s.pcs[kind].batch[0]], s.pcs[kind].target, sweep))
  {
    var batch := s.pcs[kind].batch;
    assert batch[0] in batch;
    assert PcOk(s.q, s.readMarks, s.ownRead, kind, s.pcs[kind]);
    if kind == React { ReactAnsweredKeeps(s, batch, sweep); }
    else {
      RaiseKeeps(s, PlaceOf(s.q.items[batch[0]]), s.pcs[kind].target);
      ReadClosedKeeps(Noted(s, PlaceOf(s.q.items[batch[0]]), s.pcs[kind].target), batch, s.pcs[kind].target);
    }
  }

  lemma {:induction false} SentNotedKeeps(s: State, sent: seq<Sent>)
    requires Inv(s)
    ensures Inv(SentNoted(s, sent))
  {
    if sent != [] {
      var r := SentNoted(s, sent[..|sent| - 1]);
      SentNotedKeeps(s, sent[..|sent| - 1]);
      var t := SentNoted(s, sent);
      SendsAreFree(r, t.ownSent, t.ownSendAt);
    }
  }

  lemma ClosesWell(s: State, kind: Kind, verdict: Verdict)
    requires PcsOk(s) && kind in s.pcs && !s.pcs[kind].Idle?
    requires verdict.Failing() || (verdict == Ok && s.pcs[kind].Acting?)
    ensures PcOk(s.q, s.readMarks, s.ownRead, kind, Closing(s.pcs[kind].batch, verdict))
  {
    assert PcOk(s.q, s.readMarks, s.ownRead, kind, s.pcs[kind]);
  }

  /** The answer of the action's own operation, or an error on the way. */
  lemma ClosingKeeps(s: State, kind: Kind, verdict: Verdict)
    requires Inv(s) && kind in s.pcs && !s.pcs[kind].Idle?
    requires verdict.Failing() || (verdict == Ok && s.pcs[kind].Acting?)
    ensures Inv(s.(pcs := s.pcs[kind := Closing(s.pcs[kind].batch, verdict)]))
  {
    var pc := Closing(s.pcs[kind].batch, verdict);
    assert PcOk(s.q, s.readMarks, s.ownRead, kind, pc) by { ClosesWell(s, kind, verdict); }
    MoveKeeps(s, kind, pc, s.ownRead, []);
  }

  lemma StopKeeps(s: State, kind: Kind)
    requires Inv(s) && kind in s.pcs && !s.pcs[kind].Idle?
    ensures Inv(s.(q := AllBrokenOff(s.q, s.pcs[kind].batch), pcs := s.pcs[kind := Idle]))
  {
    var t := s.(q := AllBrokenOff(s.q, s.pcs[kind].batch), pcs := s.pcs[kind := Idle]);
    assert PcOk(s.q, s.readMarks, s.ownRead, kind, s.pcs[kind]);
    AllBrokenOffKeeps(s.q, s.pcs[kind].batch);
    PcsMove(s, t, kind);
    LoadedIfRunning(s, kind);
  }

  lemma ActDoneKeeps(s: State, kind: Kind, sent: seq<Sent>)
    requires Inv(s) && kind in s.pcs && s.pcs[kind].Acting?
    ensures Inv(SentNoted(s.(pcs := s.pcs[kind := Closing(s.pcs[kind].batch, Ok)]), sent))
  {
    ClosingKeeps(s, kind, Ok);
    SentNotedKeeps(s.(pcs := s.pcs[kind := Closing(s.pcs[kind].batch, Ok)]), sent);
  }

  lemma StartingKeeps(s: State, e: Event)
    requires Inv(s) && (e.Step? || e.Begin? || e.Wake?) && EnabledWorker(s, e)
    ensures Inv(NextWorker(s, e))
  {
    match e
    case Step(kind, head, choice) => StepKeeps(s, kind, head, choice);
    case Begin(kind, later, jitter, sweep) => BeginKeeps(s, kind, later, jitter, sweep);
    case Wake(kind, later, jitter) => ReadPacedKeeps(s, s.pcs[kind].batch, later, jitter);
  }

  /** An answered read leaves the queue as it is, unless a reaction waited for it: then the reads it swept are done. */
  lemma AnsweredQueue(s: State, kind: Kind, sweep: seq<string>)
    requires EnabledWorker(s, ReadDone(kind, sweep))
    ensures kind != React ==> NextWorker(s, ReadDone(kind, sweep)).q == s.q
    ensures kind == React ==>
      NextWorker(s, ReadDone(kind, sweep)).q == AllFinished(s.q, sweep, Done)
      && SweepOk(s, PlaceOf(s.q.items[s.pcs[React].batch[0]]), s.pcs[React].target, sweep)
  {
  }

  lemma AnsweredKeeps(s: State, e: Event)
    requires Inv(s) && (e.ReadDone? || e.ActDone? || e.Break?) && EnabledWorker(s, e)
    ensures Inv(NextWorker(s, e))
  {
    match e
    case ReadDone(kind, sweep) => ReadAnsweredKeeps(s, kind, sweep);
    case ActDone(kind, sent) => ActDoneKeeps(s, kind, sent);
    case Break(kind, verdict) => ClosingKeeps(s, kind, verdict);
  }

  lemma EndingKeeps(s: State, e: Event)
    requires Inv(s) && (e.Settle? || e.Stop?) && EnabledWorker(s, e)
    ensures Inv(NextWorker(s, e))
  {
    match e
    case Settle(kind, verdict, dues) => SettleKeeps(s, kind, verdict, dues);
    case Stop(kind) => StopKeeps(s, kind);
  }

  lemma OutsideKeeps(s: State, e: Event)
    requires Inv(s) && !OfWorker(e) && EnabledOutside(s, e)
    ensures Inv(NextOutside(s, e))
  {
    if e.CancelItems? || e.ForgetJob? || e.ExternalRead? || e.Outgoing? || e.CountOnly? || e.Submit? {
      QueueEventKeeps(s, e);
    } else {
      match e
      case Tick(t) => InvFrame(s, s.(now := t));
      case Configure(rules, expire) => ConfigureKeeps(s, rules, expire);
      case Preload(file) => PreloadKeeps(s, file);
      case Resume(active) => ResumeKeeps(s, active);
      case Close => InvFrame(s, s.(closed := true));
      case AlbumRoll(album, roll) => AlbumsAreFree(s, Rolled(s, album, roll).albums, Rolled(s, album, roll).albumOrder);
    }
  }

  lemma QueueEventKeeps(s: State, e: Event)
    requires e.CancelItems? || e.ForgetJob? || e.ExternalRead? || e.Outgoing? || e.CountOnly? || e.Submit?
    requires EnabledOutside(s, e) && Inv(s)
    ensures Inv(NextOutside(s, e))
  {
    if e.CancelItems? { CancelKeeps(s, e.selector, e.drops); }
    else if e.ExternalRead? { ExternalReadKeeps(s, e.place, e.maxId, e.drops); }
    else if e.Outgoing? { OutgoingKeeps(s, e.chatId, e.msgId, e.drops); }
    else { HandingInKeeps(s, e); }
  }

  lemma HandingInKeeps(s: State, e: Event)
    requires Inv(s) && (e.ForgetJob? || e.CountOnly? || e.Submit?) && EnabledOutside(s, e)
    ensures Inv(NextOutside(s, e))
  {
    match e
    case Submit(item, album, hasCaption) => SubmitKeeps(s, item, album, hasCaption);
    case CountOnly(slot, action, outcome) => TallyKeeps(s, slot, action, outcome);
    case ForgetJob(job) => ForgetKeeps(s, job);
  }

  /** Every event keeps the invariant. */
  lemma NextKeeps(s: State, e: Event)
    requires Inv(s) && Enabled(s, e)
    ensures Inv(Next(s, e))
  {
    if e.Step? || e.Begin? || e.Wake? { StartingKeeps(s, e); }
    else if e.ReadDone? || e.ActDone? || e.Break? { AnsweredKeeps(s, e); }
    else if e.Settle? || e.Stop? { EndingKeeps(s, e); }
    else { OutsideKeeps(s, e); }
  }

  lemma InitKeeps()
    ensures Inv(Init())
  {
    EmptyKeeps();
    assert PacersOk(Init()) by { FirstPacers(); }
  }

  lemma FirstPacers()
    ensures PacersOk(Init())
  {
    forall k: Kind ensures k in Init().pacers && Pacing.Valid(Init().pacers[k]) && Init().pacers[k].log.seen == 0.0 {
      Pacing.FreshIsValid(DefaultRule(k));
    }
  }

  // ---- runs ---------------------------------------------------------------------------------------

  /** A run of the scheduler: the states it goes through and the events between them. */
  ghost predicate IsRun(states: seq<State>, events: seq<Event>) {
    && |states| == |events| + 1
    && states[0] == Init()
    && forall i :: 0 <= i < |events| ==> StepAt(states, events, i)
  }

  ghost predicate StepAt(states: seq<State>, events: seq<Event>, i: nat)
    requires i < |events| && |states| == |events| + 1
  {
    Takes(states[i], events[i], states[i + 1])
  }

  ghost predicate Takes(s: State, e: Event, t: State) {
    Enabled(s, e) && t == Next(s, e)
  }

  lemma RunStep(states: seq<State>, events: seq<Event>, n: nat)
    requires IsRun(states, events) && 0 < n < |states|
    ensures Takes(states[n - 1], events[n - 1], states[n])
  {
    assert StepAt(states, events, n - 1);
  }

  lemma {:induction false} RunKeeps(states: seq<State>, events: seq<Event>, n: nat)
    requires IsRun(states, events) && n < |states|
    ensures Inv(states[n])
  {
    if n == 0 {
      InitKeeps();
    } else {
      RunKeeps(states, events, n - 1);
      RunStep(states, events, n);
      NextKeeps(states[n - 1], events[n - 1]);
    }
  }

  lemma OneStepMore(states: seq<State>, events: seq<Event>, e: Event, t: State)
    requires IsRun(states, events) && Takes(states[|states| - 1], e, t)
    ensures IsRun(states + [t], events + [e])
  {
    forall i | 0 <= i < |events| + 1 ensures StepAt(states + [t], events + [e], i) {
      if i < |events| { assert StepAt(states, events, i); }
    }
  }

  lemma TwoStepsMore(states: seq<State>, events: seq<Event>, a: Event, m: State, b: Event, t: State)
    requires IsRun(states, events) && Takes(states[|events|], a, m) && Takes(m, b, t)
    ensures IsRun(states + [m, t], events + [a, b])
  {
    OneStepMore(states, events, a, m);
    OneStepMore(states + [m], events + [a], b, t);
    assert states + [m] + [t] == states + [m, t] && events + [a] + [b] == events + [a, b];
  }
}
