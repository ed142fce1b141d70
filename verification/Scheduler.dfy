/** `ActionScheduler` (`tlgr/gateway/scheduler.py`) as the object it is, on top of its queue and
    its pacers. Every method is one stretch of code between two awaits, and its contract names the
    event of the state machine it takes, so what is proved of runs is proved of the object. */
module Scheduler {
  import opened Basics
  import opened Items
  import opened Queues
  import opened Store
  import opened Machine
  import opened ItemQueues
  import Safety
  import Pacing

  class ActionScheduler {
    const queue: ItemQueue
    var now: real
    var readMarks: map<Place, int>
    var ownRead: map<Place, int>
    var ownSent: map<int, seq<int>>
    var ownSendAt: map<int, real>
    var albums: map<Album, Memo>
    var albumOrder: seq<Album>
    var pacers: map<Kind, Pacing.PacerState>
    var expire: map<Kind, Option<real>>
    var pcs: map<Kind, Pc>                          // where each worker's coroutine is suspended
    var held: seq<Record>
    var loaded: bool
    var resumed: bool
    var closed: bool
    ghost var calls: seq<Call>
    ghost var starts: seq<Startup>

    // ---- the object as a value --------------------------------------------------------

    ghost function View(): State
      reads this, queue
    {
      State(now, queue.Q(), readMarks, ownRead, ownSent, ownSendAt, albums, albumOrder, pacers, expire,
            pcs, held, loaded, resumed, closed, calls, starts)
    }

    /** The redundant parts of the queue agree. */
    ghost predicate Valid()
      reads this, queue
    {
      queue.Valid()
    }

    constructor ()
      ensures Valid() && View() == Init()
      ensures fresh(queue)
    {
      queue := new ItemQueue();
      now := 0.0;
      readMarks, ownRead, ownSent, ownSendAt := map[], map[], map[], map[];
      albums, albumOrder, expire := map[], [], map[];
      pacers := map k | k in KINDS :: Pacing.Fresh(DefaultRule(k));
      pcs := map k | k in KINDS :: Idle;
      held, loaded, resumed, closed := [], false, false, false;
      calls, starts := [], [];
      new;
      assert pcs == Init().pcs && pacers == Init().pacers;
    }

    // ---- the clock and the configuration ---------------------------------------------------------

    method Tick(t: real)
      requires Valid() && now <= t
      modifies `now
      ensures Valid() && View() == NextOutside(old(View()), Event.Tick(t))
    {
      now := t;
    }

    /** Every pacer gets its rule, or the default one. */
    method Configure(rules: map<Kind, Pacing.Rule>, expire: map<Kind, Option<real>>)
      requires Valid()
      modifies `expire, `pacers
      ensures Valid() && View() == NextOutside(old(View()), Event.Configure(rules, expire))
    {
      ghost var p := pacers;
      var left := pacers.Keys;
      while left != {}
        invariant left <= pacers.Keys == p.Keys
        invariant forall k :: k in p ==> pacers[k] == if k in left then p[k] else p[k].(rule := RuleFor(rules, k))
      {
        var kind :| kind in left;
        left := left - {kind};
        pacers := pacers[kind := pacers[kind].(rule := RuleFor(rules, kind))];
      }
      assert pacers == Reconfigured(p, rules);
      this.expire := expire;
    }

    /** `close`: no new action starts. */
    method Close()
      requires Valid()
      modifies `closed
      ensures Valid() && View() == NextOutside(old(View()), Event.Close)
    {
      closed := true;
    }

    // ---- the persisted queue ------------------------------------------------------------------------

    /** `preload`, given what the store holds; it reads once. */
    method Preload(file: File)
      requires Valid() && (!loaded ==> queue.recent == [])
      modifies `loaded, `held, queue
      ensures Valid()
      ensures View() == if old(loaded) then old(View()) else NextOutside(old(View()), Event.Preload(file))
    {
      if loaded {
        return;
      }
      loaded := true;
      held := LoadedItems(file);
      queue.BlockLoaded(file);
    }

    /** `resume`, once; a queue that was not read yet is read first. */
    method Resume(stored: File, active: set<string>) returns (restored: int)
      requires Valid() && (!loaded ==> queue.recent == [])
      requires HeldOk(queue.Q(), if loaded then held else LoadedItems(stored))
      requires queue.items.Keys <= queue.ledger.used && queue.running <= queue.items.Keys
      modifies `loaded, `resumed, `held, queue
      ensures Valid()
      ensures var read := if old(loaded) then old(View()) else NextOutside(old(View()), Event.Preload(stored));
        View() == if old(resumed) then read else NextOutside(read, Event.Resume(active))
      ensures restored == |queue.items| - |old(queue.items)|
    {
      Preload(stored);
      restored := RestoreHeld(active);
    }

    method RestoreHeld(active: set<string>) returns (restored: int)
      requires Valid() && HeldOk(queue.Q(), held)
      requires queue.items.Keys <= queue.ledger.used && queue.running <= queue.items.Keys
      modifies `resumed, `held, queue
      ensures Valid()
      ensures View() == if old(resumed) then old(View()) else NextOutside(old(View()), Event.Resume(active))
      ensures restored == |queue.items| - |old(queue.items)|
    {
      if resumed {
        return 0;
      }
      resumed := true;
      var was := held;
      held := [];
      restored := queue.Restore(was, active);
    }

    // ---- submission ------------------------------------------------------------------------------------

    /** The guards of `submit`, in the order the code asks them. */
    method Judge(item: PendingItem, album: Option<Album>) returns (answer: Answer)
      ensures answer == SubmitAnswer(View(), item, album)
    {
      if item.key != "" && (item.key in queue.keys || item.key in queue.recent) {
        return Duplicate;
      }
      if album.Some? && album.value in albums && albums[album.value].itemId.Some? {
        return AlbumMember;
      }
      if |queue.items| >= MAX_PENDING {
        return Answer.Full;
      }
      answer := Scheduled;
    }

    /** `submit` */
    method Submit(item: PendingItem, album: Option<Album>, hasCaption: bool) returns (answer: Answer)
      requires Valid() && item.id !in queue.items && item.id !in queue.ledger.used && item.id !in queue.running
      requires forall id :: id in queue.items ==> queue.items[id].id == id
      modifies `albums, `albumOrder, queue
      ensures Valid()
      ensures answer == SubmitAnswer(old(View()), item, album)
      ensures View() == Answered(old(View()), answer, item, album, hasCaption)
    {
      answer := Judge(item, album);
      match answer
      case Duplicate =>
      case AlbumMember => JoinAlbum(item, album.value, hasCaption);
      case Full => queue.CountRefused(SlotOf(item), item.action, Errors);
      case Scheduled => Enqueue(item, album, hasCaption);
    }

    /** A further message of an album that has its item already: the item moves to the caption, once. */
    method JoinAlbum(item: PendingItem, album: Album, hasCaption: bool)
      requires Valid() && album in albums && albums[album].itemId.Some?
      requires forall id :: id in queue.items ==> queue.items[id].id == id
      modifies `albums, queue
      ensures Valid()
      ensures View() == JoinedAlbum(old(View()), item, album, hasCaption)
    {
      var memo := albums[album];
      var id := memo.itemId.value;
      if id in queue.items && queue.states[id].IsPending? && hasCaption && !memo.hasCaption {
        MoveCaption(id, item.msgId, album);
      }
      CountSkipped(item);
    }

    method CountSkipped(item: PendingItem)
      requires Valid()
      modifies queue
      ensures Valid()
      ensures View() == old(View()).(q := Tallied(old(queue.Q()), SlotOf(item), item.action, Skipped))
    {
      queue.CountRefused(SlotOf(item), item.action, Skipped);
    }

    method MoveCaption(id: string, msgId: int, album: Album)
      requires Valid() && album in albums && id in queue.items && queue.items[id].id == id
      modifies `albums, queue
      ensures Valid()
      ensures View() == old(View()).(q := CaptionMoved(old(queue.Q()), id, msgId),
                                     albums := old(albums)[album := old(albums)[album].(hasCaption := true)])
    {
      queue.Edit(queue.items[id].(msgId := msgId));
      albums := albums[album := albums[album].(hasCaption := true)];
    }

    /** An accepted item: the album remembers it, and it joins the queue. */
    method Enqueue(item: PendingItem, album: Option<Album>, hasCaption: bool)
      requires Valid() && item.id !in queue.items && item.id !in queue.ledger.used && item.id !in queue.running
      modifies `albums, `albumOrder, queue
      ensures Valid()
      ensures View() == Enqueued(old(View()), item, album, hasCaption)
    {
      if album.Some? {
        if album.value !in albums {
          albumOrder := albumOrder + [album.value];
        }
        var roll := if album.value in albums then albums[album.value].roll else true;
        albums := albums[album.value := Memo(roll, Some(item.id), hasCaption)];
      }
      queue.Insert(item);
    }

    /** `roll`: `draw` is what `randrange(100)` gives when it is asked. */
    static function Roll(percent: int, draw: nat): bool {
      if percent >= 100 then true else if percent <= 0 then false else draw < percent
    }

    /** `album_roll`: one roll per album, for as long as it is remembered; the oldest albums beyond 2000 go. */
    method AlbumRoll(album: Album, percent: int, draw: nat) returns (through: bool)
      requires Valid() && draw < 100
      modifies `albums, `albumOrder
      ensures Valid() && View() == Rolled(old(View()), album, Roll(percent, draw))
      ensures album in old(albums) ==> through == old(albums)[album].roll
      ensures album !in old(albums) ==> through == Roll(percent, draw)
    {
      if album in albums {
        return albums[album].roll;
      }
      through := Roll(percent, draw);
      albums := albums[album := Memo(through, None, false)];
      albumOrder := albumOrder + [album];
      EvictAlbums();
    }

    /** The oldest albums beyond 2000 are forgotten. */
    method EvictAlbums()
      modifies `albums, `albumOrder
      ensures albumOrder == LastN(old(albumOrder), ALBUM_MEMORY)
      ensures albums == old(albums) - set i | 0 <= i < |old(albumOrder)| - |albumOrder| :: old(albumOrder)[i]
    {
      ghost var all, order, gone := albums, albumOrder, 0;
      while |albumOrder| > ALBUM_MEMORY
        invariant 0 <= gone <= |order| && albumOrder == order[gone..]
        invariant gone > 0 ==> |albumOrder| >= ALBUM_MEMORY
        invariant albums == all - set i | 0 <= i < gone :: order[i]
      {
        EvictOne(all, order, gone);
        albums := albums - {albumOrder[0]};
        albumOrder := albumOrder[1..];
        gone := gone + 1;
      }
    }

    lemma EvictOne(all: map<Album, Memo>, order: seq<Album>, gone: nat)
      requires gone < |order|
      ensures all - (set i | 0 <= i < gone :: order[i]) - {order[gone]} == all - set i | 0 <= i < gone + 1 :: order[i]
    {
    }

    /** `count`, asked by a job for something it did not submit. */
    method CountOnly(slot: Slot, action: Kind, outcome: Outcome)
      requires Valid()
      modifies queue
      ensures Valid() && View() == NextOutside(old(View()), Event.CountOnly(slot, action, outcome))
    {
      queue.CountRefused(slot, action, outcome);
    }

    // ---- dropping items ---------------------------------------------------------------------------------

    /** `cancel` */
    method CancelItems(sel: Selector) returns (ghost drops: seq<string>)
      requires Valid() && forall id :: id in queue.items ==> queue.items[id].id == id
      modifies queue
      ensures Valid() && Enumerates(drops, ToCancel(old(queue.Q()), sel))
      ensures View() == NextOutside(old(View()), Event.CancelItems(sel, drops))
    {
      drops := queue.Cancel(sel);
    }

    /** `forget_job` */
    method ForgetJob(job: string) returns (count: nat)
      requires Valid() && forall id :: id in queue.items ==> queue.items[id].id == id && OwnsKey(queue.Q(), id)
      modifies queue
      ensures Valid() && View() == NextOutside(old(View()), Event.ForgetJob(job))
      ensures count == |OfJob(old(queue.Q()), job)|
    {
      count := queue.Forget(job);
    }

    /** `note_read` */
    method NoteRead(place: Place, target: int)
      modifies `readMarks
      ensures readMarks == old(readMarks)[place := Max(Get(old(readMarks), place, 0), target)]
    {
      readMarks := readMarks[place := Max(Get(readMarks, place, 0), target)];
    }

    /** `_takeover` */
    method TakeOver(chatId: int, topic: Option<int>, upTo: int) returns (ghost drops: seq<string>)
      requires Valid() && forall id :: id in queue.items ==> queue.items[id].id == id
      modifies queue
      ensures Valid() && Enumerates(drops, Takeover(old(queue.Q()), chatId, topic, upTo))
      ensures queue.Q() == AllFinished(old(queue.Q()), drops, Superseded)
    {
      var chosen := set id | id in queue.items
        && queue.items[id].chatId == chatId && queue.items[id].msgId <= upTo && id !in queue.running
        && (topic == None || queue.items[id].topicId == topic)
        && CancelledBy(queue.items[id].action, queue.items[id].onTakeover);
      assert chosen == Takeover(queue.Q(), chatId, topic, upTo);
      drops := queue.FinishEach(chosen, Superseded);
    }

    /** An outgoing message or a read this soon after tlgr's own send is taken for its echo. */
    method RecentlySent(chatId: int) returns (just: bool)
      ensures just == JustSent(View(), chatId)
    {
      just := chatId in ownSendAt && now - ownSendAt[chatId] < OWN_SEND_WINDOW;
    }

    /** `external_read` */
    method ExternalRead(place: Place, maxId: int) returns (ghost drops: seq<string>)
      requires Valid() && forall id :: id in queue.items ==> queue.items[id].id == id
      modifies `readMarks, queue
      ensures Valid() && Enumerates(drops, ReadTakeover(old(View()), place, maxId))
      ensures View() == NextOutside(old(View()), Event.ExternalRead(place, maxId, drops))
    {
      NoteRead(place, maxId);
      var just := RecentlySent(place.0);
      if maxId <= Get(ownRead, place, 0) || just {
        return [];
      }
      drops := TakeOver(place.0, place.1, maxId);
    }

    /** `outgoing` */
    method Outgoing(chatId: int, msgId: int) returns (ghost drops: seq<string>)
      requires Valid() && forall id :: id in queue.items ==> queue.items[id].id == id
      modifies queue
      ensures Valid() && Enumerates(drops, SendTakeover(old(View()), chatId, msgId))
      ensures View() == NextOutside(old(View()), Event.Outgoing(chatId, msgId, drops))
    {
      var just := RecentlySent(chatId);
      if msgId in Get(ownSent, chatId, []) || just {
        return [];
      }
      drops := TakeOver(chatId, None, msgId);
    }

    // ---- a worker's step --------------------------------------------------------------------------------

    /** What the methods below rely on, of a worker that is idle and its pacer. */
    ghost predicate Rested(kind: Kind)
      reads this, queue
    {
      && kind in pcs && pcs[kind].Idle? && kind in pacers
      && (forall id :: id in queue.items ==> queue.items[id].id == id && id in queue.ledger.used)
      && (forall id :: id in queue.items && queue.items[id].action == kind ==> id !in queue.running)
    }

    /** How often a transient failure of the kind is retried. */
    function LimitFor(kind: Kind): (limit: nat)
      reads this, queue
      ensures limit == RetryLimit(View(), kind)
    {
      if (if kind in expire then expire[kind] else DefaultExpiry(kind)) == None then PATIENT_RETRIES else QUICK_RETRIES
    }

    /** An item past its expiry leaves. */
    method GiveUp(head: string)
      requires Valid() && head in queue.items && queue.items[head].id == head && head !in queue.running
      modifies queue
      ensures Valid() && View() == GivenUp(old(View()), head)
    {
      FinishedWhenPending(queue.Q(), queue.items[head], Expired);
      queue.Finish(queue.items[head], Expired);
    }

    /** `_hold_for_quiet_hours`: the item is put off past its window. */
    method PutItemOff(head: string, due: real)
      requires Valid() && head in queue.items && queue.items[head].id == head && head in queue.ledger.used
      requires head !in queue.running
      modifies queue
      ensures Valid() && View() == PutOff(old(View()), head, due)
    {
      queue.Reschedule(queue.items[head], due);
    }

    /** `_execute` of a dry run: nothing is awaited, so it starts and settles in one stretch. */
    method ExecuteDry(kind: Kind, head: string, batch: seq<string>) returns (ghost dues: seq<real>)
      requires Valid() && kind in pacers && IsBatch(queue.Q(), head, batch, now)
      requires forall id :: id in queue.items ==> queue.items[id].id == id && id in queue.ledger.used
      modifies queue, `starts
      ensures Valid() && |dues| == |batch|
      ensures old(head in queue.items && forall id :: id in batch ==> id in queue.items)
      ensures View() == RanDry(old(View()), kind, head, batch, dues)
    {
      Safety.BatchIsPending(queue.Q(), head, batch, now);
      starts := StartsWith(View(), head, batch);
      var none := seq(|batch|, _ => 0.0);
      dues := none;
      queue.Launch(batch);
      queue.Settle(batch, Ok, LimitFor(kind), none);
    }

    /** The head of `_execute`: the batch starts, up to `presence.before`. */
    method Execute(kind: Kind, head: string, batch: seq<string>)
      requires Valid() && IsBatch(queue.Q(), head, batch, now)
      modifies queue, `starts, `pcs
      ensures Valid()
      ensures old(head in queue.items && forall id :: id in batch ==> id in queue.items)
      ensures View() == old(View()).(q := AllLaunched(old(queue.Q()), batch), pcs := old(pcs)[kind := Opening(batch)],
                                     starts := StartsWith(old(View()), head, batch))
    {
      Safety.BatchIsPending(queue.Q(), head, batch, now);
      starts := StartsWith(View(), head, batch);
      pcs := pcs[kind := Opening(batch)];
      queue.Launch(batch);
    }

    /** `pacer.delay` */
    method Delay(kind: Kind) returns (wait: real)
      requires kind in pacers
      modifies `pacers
      ensures pacers == old(pacers)[kind := Pacing.Looked(old(pacers)[kind], now)]
      ensures wait == Pacing.Wait(pacers[kind], now)
    {
      pacers := pacers[kind := Pacing.Looked(pacers[kind], now)];
      wait := Pacing.Wait(pacers[kind], now);
    }

    /** The slot is taken, and the batch around the head starts. */
    method Start(kind: Kind, head: string, jitter: real) returns (batch: seq<string>)
      requires Valid() && kind in pacers
      requires head in queue.items && Joins(queue.Q(), queue.items[head], now, head)
      modifies queue, `starts, `pacers, `pcs
      ensures Valid() && IsBatch(old(queue.Q()), head, batch, now)
      ensures old(head in queue.items && forall id :: id in batch ==> id in queue.items)
      ensures View() == old(View()).(
        q := AllLaunched(old(queue.Q()), batch), pcs := old(pcs)[kind := Opening(batch)],
        starts := StartsWith(old(View()), head, batch),
        pacers := old(pacers)[kind := Pacing.Consumed(old(pacers)[kind], now, jitter)])
    {
      batch := queue.BatchFor(head, now);
      pacers := pacers[kind := Pacing.Consumed(pacers[kind], now, jitter)];
      Execute(kind, head, batch);
    }

    /** `_step` for an item that sends something: its pacer decides. */
    method StepPaced(kind: Kind, head: string, jitter: real) returns (ghost choice: Choice)
      requires Valid() && kind in pacers
      requires head in queue.items && Joins(queue.Q(), queue.items[head], now, head)
      modifies queue, `starts, `pacers, `pcs
      ensures Valid()
      ensures if Pacing.Wait(Pacing.Looked(old(pacers)[kind], now), now) > 0.0 then choice == TooSoon
              else choice.Run? && choice.jitter == jitter && IsBatch(old(queue.Q()), head, choice.batch, now)
      ensures choice == TooSoon ==> View() == Waited(old(View()), kind)
      ensures choice.Run? ==> old(head in queue.items && forall id :: id in choice.batch ==> id in queue.items)
      ensures choice.Run? ==> View() == Ran(old(View()), kind, head, choice.batch, jitter)
    {
      var wait := Delay(kind);
      if wait > 0.0 {
        return TooSoon;
      }
      var batch := Start(kind, head, jitter);
      choice := Choice.Run(batch, jitter);
    }

    /** `_step` for an item that is due. */
    method StepDue(kind: Kind, head: string, spread: real, jitter: real) returns (ghost choice: Choice)
      requires Valid() && Rested(kind) && head in queue.items && queue.items[head].action == kind
      requires queue.items[head].dueAt <= now && 0.0 <= spread <= QUIET_RELEASE_SPREAD && Pacing.Jitter(jitter)
      modifies queue, `starts, `pacers, `pcs
      ensures Valid() && old(kind in pacers && head in queue.items) && ChoiceOk(old(View()), kind, head, choice)
      ensures choice.RunDry? ==> |choice.dues| == |choice.batch|
      ensures choice.RunDry? || choice.Run? ==> old(forall id :: id in choice.batch ==> id in queue.items)
      ensures View() == Stepped(old(View()), kind, head, choice)
    {
      var item := queue.items[head];
      if PastExpiry(item, now) {
        GiveUp(head);
        return Expire;
      }
      var quiet := QuietUntil(item, now);
      if quiet.Some? {
        PutItemOff(head, quiet.value + spread);
        return Hold(quiet.value + spread);
      }
      choice := StepAllowed(kind, head, jitter);
    }

    /** `_step` for an item that may start: a dry run needs no slot. */
    method StepAllowed(kind: Kind, head: string, jitter: real) returns (ghost choice: Choice)
      requires Valid() && Rested(kind) && head in queue.items && queue.items[head].action == kind
      requires MayStart(queue.items[head], now) && Pacing.Jitter(jitter)
      modifies queue, `starts, `pacers, `pcs
      ensures Valid() && old(kind in pacers && head in queue.items) && ChoiceOk(old(View()), kind, head, choice)
      ensures choice.RunDry? ==> |choice.dues| == |choice.batch|
      ensures choice.RunDry? || choice.Run? ==> old(forall id :: id in choice.batch ==> id in queue.items)
      ensures View() == Stepped(old(View()), kind, head, choice)
    {
      if queue.items[head].dryRun {
        var batch := queue.BatchFor(head, now);
        ghost var dues := ExecuteDry(kind, head, batch);
        return RunDry(batch, dues);
      }
      choice := StepPaced(kind, head, jitter);
    }

    /** One round of `_step`: wait (None), or do what is due. */
    method Step(kind: Kind, spread: real, jitter: real) returns (ghost head: string, ghost choice: Option<Choice>)
      requires Valid() && !closed && Rested(kind)
      requires 0.0 <= spread <= QUIET_RELEASE_SPREAD && Pacing.Jitter(jitter)
      modifies queue, `starts, `pacers, `pcs
      ensures Valid()
      ensures choice.None? ==> View() == old(View())
      ensures choice.None? ==> forall id :: old(Pending(queue.Q(), id)) ==>
        old(queue.items[id].action == kind ==> queue.items[id].dueAt > now)
      ensures choice.Some? ==> EnabledStep(old(View()), kind, head, choice.value)
      ensures choice.Some? ==> View() == Stepped(old(View()), kind, head, choice.value)
    {
      var found := queue.Peek(kind);
      head := "";
      if found.None? || queue.items[found.value].dueAt > now {
        return "", None;
      }
      head := found.value;
      ghost var done := StepDue(kind, found.value, spread, jitter);
      choice := Some(done);
    }

    // ---- what the actions do --------------------------------------------------------------------------

    /** `begin_read`: announced before the request goes out, as its echo can be the first to arrive. */
    method BeginRead(place: Place, target: int)
      modifies `ownRead
      ensures ownRead == old(ownRead)[place := Max(Get(old(ownRead), place, 0), target)]
    {
      ownRead := ownRead[place := Max(Get(ownRead, place, 0), target)];
    }

    /** `begin_read`, and `message.read` goes out. */
    method IssueRead(kind: Kind, batch: seq<string>, place: Place, target: int, requested: seq<PendingItem>)
      requires Valid()
      modifies `ownRead, `pcs, `calls
      ensures Valid() && View() == ReadIssued(old(View()), kind, batch, place, target, requested)
    {
      BeginRead(place, target);
      calls := calls + [Call(ReadFor(kind, place, target, requested), requested)];
      pcs := pcs[kind := Reading(batch, target)];
    }

    /** The loop of `ensure_read` over the reads it satisfied, and `reaction.add` goes out. */
    method IssueReaction(batch: seq<string>, item: PendingItem) returns (ghost sweep: seq<string>)
      requires Valid() && forall id :: id in queue.items ==> queue.items[id].id == id
      modifies queue, `pcs, `calls
      ensures Valid() && Enumerates(sweep, SatisfiedReads(old(queue.Q()), PlaceOf(item), item.msgId))
      ensures View() == ReactIssued(old(View()), batch, item, sweep)
    {
      var satisfied := set id | id in queue.items
        && queue.items[id].action == Read && !queue.items[id].dryRun && id !in queue.running
        && PlaceOf(queue.items[id]) == PlaceOf(item) && queue.items[id].msgId <= item.msgId
        && !queue.items[id].payload.mentions && !queue.items[id].payload.reactions;
      assert satisfied == SatisfiedReads(queue.Q(), PlaceOf(item), item.msgId);
      sweep := queue.FinishEach(satisfied, Done);
      calls := calls + [Call(ReactionOp(PlaceOf(item), item.msgId, Get(readMarks, PlaceOf(item), 0)), [item])];
      pcs := pcs[React := Acting(batch)];
    }

    /** The read pacer's slot is taken, and `message.read` goes out for a reaction. */
    method TakeReadSlot(batch: seq<string>, item: PendingItem, later: real, jitter: real)
      requires Valid() && Read in pacers
      modifies `now, `pacers, `ownRead, `pcs, `calls
      ensures Valid()
      ensures View() == ReadIssued(
        old(View()).(pacers := old(pacers)[Read := Pacing.Consumed(old(pacers)[Read], later, jitter)], now := later),
        React, batch, PlaceOf(item), item.msgId, [item])
    {
      pacers := pacers[Read := Pacing.Consumed(pacers[Read], later, jitter)];
      now := later;
      IssueRead(React, batch, PlaceOf(item), item.msgId, [item]);
    }

    /** One turn of the loop in `ensure_read` that waits for the read pacer. */
    method AskReadPacer(batch: seq<string>, item: PendingItem, later: real, jitter: real)
      requires Valid() && Read in pacers
      modifies `now, `pacers, `ownRead, `pcs, `calls
      ensures Valid() && View() == ReadPaced(old(View()), batch, item, later, jitter)
    {
      ghost var s := View();
      var wait := LookAtRead();
      if wait > 0.0 {
        SleepOnRead(batch);
      } else {
        TakeReadSlot(batch, item, later, jitter);
      }
      ReadPacedIs(s, batch, item, later, jitter);
    }

    method LookAtRead() returns (wait: real)
      requires Valid() && Read in pacers
      modifies `pacers
      ensures Valid()
      ensures View() == old(View()).(pacers := old(pacers)[Read := Pacing.Looked(old(pacers)[Read], now)])
      ensures wait == Pacing.Wait(pacers[Read], now)
    {
      wait := Delay(Read);
    }

    method SleepOnRead(batch: seq<string>)
      requires Valid()
      modifies `pcs
      ensures Valid() && View() == old(View()).(pcs := old(pcs)[React := Pc.Pacing(batch)])
    {
      pcs := pcs[React := Pc.Pacing(batch)];
    }

    /** `ReadPaced` in the order of the code: the pacer is asked, and then its slot is taken. */
    lemma ReadPacedIs(s: State, batch: seq<string>, item: PendingItem, later: real, jitter: real)
      requires Read in s.pacers
      ensures var looked := s.pacers[Read := Pacing.Looked(s.pacers[Read], s.now)];
        ReadPaced(s, batch, item, later, jitter)
        == if Pacing.Wait(looked[Read], s.now) > 0.0 then s.(pacers := looked, pcs := s.pcs[React := Pc.Pacing(batch)])
           else ReadIssued(s.(pacers := looked[Read := Pacing.Consumed(looked[Read], later, jitter)], now := later),
                           React, batch, PlaceOf(item), item.msgId, [item])
    {
      var looked := Pacing.Looked(s.pacers[Read], s.now);
      assert s.pacers[Read := looked][Read := Pacing.Consumed(looked, later, jitter)]
          == s.pacers[Read := Pacing.Consumed(looked, later, jitter)];
    }

    /** `React.execute`, up to its first await. */
    method ExecuteReact(batch: seq<string>, item: PendingItem, later: real, jitter: real)
      returns (ghost sweep: seq<string>)
      requires Valid() && Read in pacers && forall id :: id in queue.items ==> queue.items[id].id == id
      modifies queue, `now, `pacers, `ownRead, `pcs, `calls
      ensures Valid() && Enumerates(sweep, SatisfiedReads(old(queue.Q()), PlaceOf(item), item.msgId))
      ensures View() == ReactBegun(old(View()), batch, item, later, jitter, sweep)
    {
      if Get(readMarks, PlaceOf(item), 0) < item.msgId {
        sweep := Walk(SatisfiedReads(queue.Q(), PlaceOf(item), item.msgId));
        AskReadPacer(batch, item, later, jitter);
      } else {
        sweep := IssueReaction(batch, item);
      }
    }

    /** `Read.execute`, up to its first await. A read that is no news, and clears no badge, sends nothing. */
    method ExecuteRead(batch: seq<string>)
      requires Valid() && batch != [] && forall id :: id in batch ==> id in queue.items
      modifies `ownRead, `pcs, `calls
      ensures Valid() && View() == ReadBegun(old(View()), batch, ItemsAt(old(queue.Q()), batch))
    {
      var found := queue.Gather(batch);
      var target := Highest(found);
      if Get(readMarks, PlaceOf(found[0]), 0) >= target && !AnyBadge(found) {
        pcs := pcs[Read := Closing(batch, Ok)];
      } else {
        IssueRead(Read, batch, PlaceOf(found[0]), target, found);
      }
    }

    /** `View.execute`, up to its first await. */
    method ExecuteView(batch: seq<string>)
      requires Valid() && batch != [] && forall id :: id in batch ==> id in queue.items
      modifies `pcs, `calls
      ensures Valid() && View() == ViewBegun(old(View()), batch, ItemsAt(old(queue.Q()), batch))
    {
      var found := queue.Gather(batch);
      calls := calls + [Call(ViewOp(found[0].chatId, found[0].payload.mode, Cut(Ids(found), MAX_BATCH)), found)];
      pcs := pcs[Kind.View := Acting(batch)];
    }

    /** Typing shows, and the reply is to be put back until it ends. */
    method ShowTyping(batch: seq<string>, item: PendingItem)
      requires Valid() && item.id in queue.items && queue.items[item.id] == item
      modifies queue, `pcs
      ensures Valid() && View() == TypingBegun(old(View()), batch, item)
    {
      queue.Edit(item.(phase := Send));
      pcs := pcs[Reply := Closing(batch, Later(now + TypingSeconds(item)))];
    }

    /** `Reply.execute`, up to its first await: typing and back in the queue, or the send. */
    method ExecuteReply(batch: seq<string>, item: PendingItem)
      requires Valid() && item.id in queue.items && queue.items[item.id] == item
      modifies queue, `ownSendAt, `pcs, `calls
      ensures Valid() && View() == ReplyBegun(old(View()), batch, item)
    {
      if item.phase == Phase.Start && item.payload.typing && !item.broadcast {
        calls := calls + [Call(TypingOp(item.chatId, TypingSeconds(item)), [item])];
        ShowTyping(batch, item);
      } else {
        SendReply(batch, item);
      }
    }

    /** The reply itself goes out. */
    method SendReply(batch: seq<string>, item: PendingItem)
      requires Valid()
      modifies `ownSendAt, `pcs, `calls
      ensures Valid() && View() == ReplySent(old(View()), batch, item)
    {
      ownSendAt := ownSendAt[item.chatId := now];
      calls := calls + [Call(SendOp(item.chatId, item.msgId), [item])];
      pcs := pcs[Reply := Acting(batch)];
    }

    /** `presence.before` has returned: the action of the kind begins. */
    method Begin(kind: Kind, later: real, jitter: real) returns (ghost sweep: seq<string>)
      requires Valid() && BatchLive(View(), kind) && pcs[kind].Opening? && now <= later && Pacing.Jitter(jitter)
      requires forall id :: id in queue.items ==> queue.items[id].id == id
      modifies queue, `now, `pacers, `ownRead, `ownSendAt, `pcs, `calls
      ensures Valid() && EnabledBegin(old(View()), kind, later, jitter, sweep)
      ensures View() == Begun(old(View()), kind, later, jitter, sweep)
    {
      var batch := pcs[kind].batch;
      assert batch[0] in batch;
      var item := queue.items[batch[0]];
      sweep := [];
      match kind
      case React => sweep := ExecuteReact(batch, item, later, jitter);
      case Read => ExecuteRead(batch);
      case View => ExecuteView(batch);
      case Forward =>
        calls := calls + [Call(ForwardOp(item.chatId, item.msgId, item.payload.to), [item])];
        pcs := pcs[Forward := Acting(batch)];
      case Reply => ExecuteReply(batch, item);
    }

    /** The read pacer is asked again after a sleep. */
    method Wake(later: real, jitter: real)
      requires Valid() && BatchLive(View(), React) && pcs[React].Pacing? && now <= later && Pacing.Jitter(jitter)
      modifies `now, `pacers, `ownRead, `pcs, `calls
      ensures Valid()
      ensures View() == ReadPaced(old(View()), old(pcs)[React].batch,
                                  old(queue.items)[old(pcs)[React].batch[0]], later, jitter)
    {
      var batch := pcs[React].batch;
      assert batch[0] in batch;
      AskReadPacer(batch, queue.items[batch[0]], later, jitter);
    }

    /** `message.read` answered: the mark rises, and a reaction goes on to `reaction.add`. */
    method ReadDone(kind: Kind) returns (ghost sweep: seq<string>)
      requires Valid() && BatchLive(View(), kind) && pcs[kind].Reading?
      requires kind == React ==> pcs[kind].target == queue.items[pcs[kind].batch[0]].msgId
      requires forall id :: id in queue.items ==> queue.items[id].id == id
      modifies queue, `readMarks, `pcs, `calls
      ensures Valid() && EnabledWorker(old(View()), Event.ReadDone(kind, sweep))
      ensures View() == ReadAnswered(old(View()), kind, old(pcs)[kind].batch,
                                     old(queue.items)[old(pcs)[kind].batch[0]], old(pcs)[kind].target, sweep)
    {
      var batch, target := pcs[kind].batch, pcs[kind].target;
      assert batch[0] in batch;
      var item := queue.items[batch[0]];
      NoteRead(PlaceOf(item), target);
      sweep := [];
      if kind == React {
        sweep := IssueReaction(batch, item);
      } else {
        pcs := pcs[kind := Closing(batch, Ok)];
      }
    }

    /** `note_sent` */
    method NoteSent(chatId: int, ids: seq<int>)
      requires Valid()
      modifies `ownSent, `ownSendAt
      ensures Valid() && View() == SentTo(old(View()), chatId, ids)
    {
      if chatId == 0 {
        return;
      }
      var grown := Get(ownSent, chatId, []) + NonZero(ids);
      ownSent := ownSent[chatId := LastN(grown, SENT_MEMORY)];
      ownSendAt := ownSendAt[chatId := now];
    }

    /** The action's own operation answered. */
    method ActDone(kind: Kind, sent: seq<Sent>)
      requires Valid() && BatchLive(View(), kind) && pcs[kind].Acting? && (kind in {React, Kind.View} ==> sent == [])
      modifies `ownSent, `ownSendAt, `pcs
      ensures Valid() && EnabledWorker(old(View()), Event.ActDone(kind, sent))
      ensures View() == NextWorker(old(View()), Event.ActDone(kind, sent))
    {
      pcs := pcs[kind := Closing(pcs[kind].batch, Ok)];
      NoteAllSent(sent);
    }

    method NoteAllSent(sent: seq<Sent>)
      requires Valid()
      modifies `ownSent, `ownSendAt
      ensures Valid() && View() == SentNoted(old(View()), sent)
    {
      ghost var s := View();
      var i := 0;
      while i < |sent|
        invariant i <= |sent| && Valid() && View() == SentNoted(s, sent[..i])
      {
        assert sent[..i + 1][..i] == sent[..i];
        NoteSent(sent[i].chatId, sent[i].ids);
        i := i + 1;
      }
      assert sent[..i] == sent;
    }

    /** What was awaited raised. */
    method Break(kind: Kind, verdict: Verdict)
      requires Valid() && EnabledWorker(View(), Event.Break(kind, verdict))
      modifies `pcs
      ensures Valid() && View() == NextWorker(old(View()), Event.Break(kind, verdict))
    {
      pcs := pcs[kind := Closing(pcs[kind].batch, verdict)];
    }

    /** `presence.after` has returned, or raised: the batch is settled and the worker idle. */
    method Settle(kind: Kind, verdict: Verdict, dues: seq<real>)
      requires Valid() && kind in pcs && !pcs[kind].Idle? && kind in pacers && |dues| == |pcs[kind].batch|
      requires Distinct(pcs[kind].batch) && forall id :: id in pcs[kind].batch ==> queue.Awaits(id)
      modifies queue, `pacers, `pcs
      ensures Valid() && View() == SettledState(old(View()), kind, old(pcs)[kind].batch, verdict, dues)
    {
      if verdict.Flood? {
        pacers := pacers[kind := Pacing.Penalized(pacers[kind], now, verdict.wait)];
      }
      queue.Settle(pcs[kind].batch, verdict, LimitFor(kind), dues);
      pcs := pcs[kind := Idle];
    }

    /** `stop` cancelled the worker: its batch is pending again, and nothing counts as an attempt. */
    method Stop(kind: Kind)
      requires Valid() && BatchLive(View(), kind)
      modifies queue, `pcs
      ensures Valid() && View() == NextWorker(old(View()), Event.Stop(kind))
    {
      queue.BreakOff(pcs[kind].batch);
      pcs := pcs[kind := Idle];
    }

    // ---- saving -----------------------------------------------------------------------------------------

    /** `flush`: a queue that was not read yet is read first, and its items are written back beside ours. */
    method Flush(stored: File) returns (file: File, ghost order: seq<string>)
      requires Valid() && (!loaded ==> queue.recent == [])
      modifies `loaded, `held, queue
      ensures Valid()
      ensures View() == if old(loaded) then old(View()) else NextOutside(old(View()), Event.Preload(stored))
      ensures Enumerates(order, queue.items.Keys) && ByDue(queue.items, order)
      ensures file == Flushed(View(), order)
    {
      Preload(stored);
      var sorted := queue.Ordered();
      order := sorted;
      file := Save(Runnables(queue.items, sorted) + held, queue.recent);
    }

    // ---- the methods can always be called ------------------------------------------------------------------

    /** What the methods ask of the object holds in every state a run gets to, so a run never gets stuck on them. */
    lemma ReachedIsReady()
      requires Safety.Inv(View())
      ensures forall id :: id in queue.items ==>
        queue.items[id].id == id && id in queue.ledger.used && OwnsKey(queue.Q(), id)
      ensures queue.running <= queue.items.Keys <= queue.ledger.used
      ensures !loaded ==> queue.recent == []
      ensures HeldOk(queue.Q(), held)
    {
    }

    lemma ReachedWorkerIsReady(kind: Kind)
      requires Safety.Inv(View())
      ensures kind in pcs && kind in pacers
      ensures pcs[kind].Idle? ==> Rested(kind)
      ensures !pcs[kind].Idle? ==> BatchLive(View(), kind) && Distinct(pcs[kind].batch)
      ensures !pcs[kind].Idle? ==> forall id :: id in pcs[kind].batch ==> queue.Awaits(id)
      ensures kind == React && pcs[kind].Reading? ==>
        BatchLive(View(), kind) && pcs[kind].target == queue.items[pcs[kind].batch[0]].msgId
    {
      ReachedIsReady();
      assert Safety.PcOk(queue.Q(), readMarks, ownRead, kind, pcs[kind]);
    }
  }
}
