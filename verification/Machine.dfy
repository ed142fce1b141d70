/** `ActionScheduler` (`tlgr/gateway/scheduler.py`) as a state machine.

    One event is one stretch of code between two awaits: a bus update, a user
    command, or the next stretch of the worker of one action kind. A worker
    suspended in an await is a program counter. What the code does not decide
    (the clock, random draws, the answer of an operation, the order in which a
    dictionary is walked) is a field of the event. */
module Machine {
  import opened Basics
  import opened Items
  import opened Queues
  import opened Store
  import Pacing

  const OWN_SEND_WINDOW := 10.0
  const QUIET_RELEASE_SPREAD := 300.0
  const ALBUM_MEMORY := 2000
  const MAX_BATCH := 100
  const SENT_MEMORY := 200
  const TYPING_MIN := 2.0

  /** How an execution came out: the status of an outcome, or the class of an error. */
  datatype Verdict = Ok | NothingToDo | Later(at: real) | Flood(wait: real) | Transient | Fatal {
    predicate Failing() {
      Flood? || Transient? || Fatal?
    }
  }

  /** Where the worker of a kind is suspended. */
  datatype Pc =
    | Idle
    | Opening(batch: seq<string>)                      // in presence.before
    | Pacing(batch: seq<string>)                       // react: asleep until the read pacer opens
    | Reading(batch: seq<string>, target: int)         // in message.read
    | Acting(batch: seq<string>)                       // in the operation the action is for
    | Closing(batch: seq<string>, verdict: Verdict)    // in presence.after
  {
    function Batch(): seq<string> {
      if Idle? then [] else batch
    }

    predicate PutsOff() {
      Closing? && verdict.Later?
    }
  }

  /** A request handed to the op runner. A reaction records the read mark it went out under. */
  datatype Op =
    | ReadOp(place: Place, upTo: int, mentions: bool, reactions: bool)
    | ReactionOp(place: Place, msgId: int, mark: int)
    | ViewOp(chatId: int, mode: ViewMode, ids: set<int>)
    | TypingOp(chatId: int, seconds: real)
    | SendOp(chatId: int, replyTo: int)
    | ForwardOp(chatId: int, msgId: int, to: int)

  datatype Call = Call(op: Op, items: seq<PendingItem>)

  /** One execution: when it started, what `_peek` chose, and what went out together. */
  datatype Startup = Startup(at: real, head: PendingItem, batch: seq<PendingItem>)

  type Album = (string, int, int, int)

  /** What is remembered of an album: its one percent roll, and its item. */
  datatype Memo = Memo(roll: bool, itemId: Option<string>, hasCaption: bool)

  datatype State = State(
    now: real,
    q: Queue,
    readMarks: map<Place, int>,
    ownRead: map<Place, int>,
    ownSent: map<int, seq<int>>,
    ownSendAt: map<int, real>,
    albums: map<Album, Memo>,
    albumOrder: seq<Album>,
    pacers: map<Kind, Pacing.PacerState>,
    expire: map<Kind, Option<real>>,
    pcs: map<Kind, Pc>,
    held: seq<Record>,
    loaded: bool,
    resumed: bool,
    closed: bool,
    calls: seq<Call>,
    starts: seq<Startup>)

  function DefaultRule(kind: Kind): Pacing.Rule {
    match kind
    case React => Pacing.Rule(4.0, 300)
    case Read => Pacing.Rule(2.0, 0)
    case View => Pacing.Rule(2.0, 0)
    case Forward => Pacing.Rule(1.5, 0)
    case Reply => Pacing.Rule(1.5, 0)
  }

  const KINDS: set<Kind> := {React, Read, View, Forward, Reply}

  function Init(): State {
    State(0.0, EMPTY, map[], map[], map[], map[], map[], [],
          map k | k in KINDS :: Pacing.Fresh(DefaultRule(k)), map[],
          map k | k in KINDS :: Idle,
          [], false, false, false, [], [])
  }

  // ---- reading the state ------------------------------------------------------------

  function ItemsAt(q: Queue, ids: seq<string>): seq<PendingItem>
    requires forall id :: id in ids ==> id in q.items
  {
    seq(|ids|, i requires 0 <= i < |ids| => assert ids[i] in ids; q.items[ids[i]])
  }

  /** What `flush` writes when it writes the live items in this order. */
  function Flushed(s: State, order: seq<string>): File
    requires forall id :: id in order ==> id in s.q.items
  {
    Save(Runnables(s.q.items, order) + s.held, s.q.recent)
  }

  predicate Pending(q: Queue, id: string) {
    id in q.items && id !in q.running
  }

  /** What `_peek` answers: a pending item of its kind with the least due time. */
  ghost predicate IsPeek(q: Queue, kind: Kind, id: string) {
    && Pending(q, id) && q.items[id].action == kind
    && forall other :: Pending(q, other) && q.items[other].action == kind ==>
         q.items[id].dueAt <= q.items[other].dueAt
  }

  /** What may run together with `head`. */
  predicate Joins(q: Queue, head: PendingItem, now: real, id: string) {
    && Pending(q, id)
    && q.items[id].action == head.action
    && BatchKeyOf(q.items[id]) == BatchKeyOf(head)
    && MayStart(q.items[id], now)
  }

  /** A batch: the head alone, or everything due with its batch key, cut to the earliest hundred. */
  ghost predicate IsBatch(q: Queue, head: string, batch: seq<string>, now: real) {
    && head in q.items
    && head in batch
    && Distinct(batch)
    && |batch| <= MAX_BATCH
    && (BatchKeyOf(q.items[head]) == None ==> batch == [head])
    && (forall id :: id in batch ==> Joins(q, q.items[head], now, id))
    && (BatchKeyOf(q.items[head]) != None ==>
          forall id :: Joins(q, q.items[head], now, id) && id !in batch ==>
            && |batch| == MAX_BATCH
            && forall in_ :: in_ in batch && in_ != head ==> q.items[in_].dueAt <= q.items[id].dueAt)
  }

  function Highest(items: seq<PendingItem>): int
    requires items != []
  {
    if |items| == 1 then items[0].msgId
    else Max(Highest(items[..|items| - 1]), items[|items| - 1].msgId)
  }

  /** Pending reads that reading `place` up to `target` satisfies. */
  predicate Satisfied(q: Queue, place: Place, target: int, id: string) {
    && Pending(q, id)
    && q.items[id].action == Read && !q.items[id].dryRun
    && PlaceOf(q.items[id]) == place && q.items[id].msgId <= target
    && !q.items[id].payload.mentions && !q.items[id].payload.reactions
  }

  function SatisfiedReads(q: Queue, place: Place, target: int): set<string> {
    set id | id in q.items && Satisfied(q, place, target, id)
  }

  /** What a manual takeover of a chat drops. */
  predicate TakenOver(q: Queue, chatId: int, topic: Option<int>, upTo: int, id: string) {
    && Pending(q, id)
    && q.items[id].chatId == chatId && q.items[id].msgId <= upTo
    && (topic == None || q.items[id].topicId == topic)
    && CancelledBy(q.items[id].action, q.items[id].onTakeover)
  }

  function Takeover(q: Queue, chatId: int, topic: Option<int>, upTo: int): set<string> {
    set id | id in q.items && TakenOver(q, chatId, topic, upTo, id)
  }

  datatype Selector = Selector(ids: set<string>, chatId: Option<int>, job: Option<string>, everything: bool)

  predicate Selected(sel: Selector, item: PendingItem) {
    || sel.everything
    || (&& (sel.ids == {} || item.id in sel.ids)
        && (sel.chatId == None || item.chatId == sel.chatId.value)
        && (sel.job == None || item.job == sel.job.value)
        && !(sel.ids == {} && sel.chatId == None && sel.job == None))
  }

  function ToCancel(q: Queue, sel: Selector): set<string> {
    set id | id in q.items && Pending(q, id) && Selected(sel, q.items[id])
  }

  function ToDoom(q: Queue, sel: Selector): set<string> {
    set id | id in q.items && id in q.running
             && (sel.everything || (sel.job != None && q.items[id].job == sel.job.value && sel.ids == {}))
  }

  /** An outgoing message or a read this soon after tlgr's own send is its echo. */
  predicate JustSent(s: State, chatId: int) {
    chatId in s.ownSendAt && s.now - s.ownSendAt[chatId] < OWN_SEND_WINDOW
  }

  function ReadTakeover(s: State, place: Place, maxId: int): set<string> {
    if maxId <= Get(s.ownRead, place, 0) || JustSent(s, place.0) then {}
    else Takeover(s.q, place.0, place.1, maxId)
  }

  function SendTakeover(s: State, chatId: int, msgId: int): set<string> {
    if msgId in Get(s.ownSent, chatId, []) || JustSent(s, chatId) then {}
    else Takeover(s.q, chatId, None, msgId)
  }

  function Expiry(s: State, kind: Kind): Option<real> {
    if kind in s.expire then s.expire[kind] else DefaultExpiry(kind)
  }

  function RetryLimit(s: State, kind: Kind): nat {
    if Expiry(s, kind) == None then PATIENT_RETRIES else QUICK_RETRIES
  }

  /** What the event sends: nothing, or one request. A reaction goes out with the mark then in force. */
  ghost predicate OneCall(s: State, t: State) {
    && AsksToRead(s, t)
    && t.held == s.held && t.loaded == s.loaded && t.closed == s.closed && t.expire == s.expire
    && (|| t.calls == s.calls
        || (&& |t.calls| == |s.calls| + 1 && t.calls[..|s.calls|] == s.calls
            && (t.calls[|s.calls|].op.ReactionOp? ==>
                  t.calls[|s.calls|].op.mark == Get(t.readMarks, t.calls[|s.calls|].op.place, 0))))
  }

  /** How far tlgr itself reads in a place changes with a read that goes out, and with nothing else. */
  ghost predicate AsksToRead(s: State, t: State) {
    t.ownRead
    == if |t.calls| > |s.calls| && t.calls[|s.calls|].op.ReadOp? then
         var op := t.calls[|s.calls|].op; s.ownRead[op.place := Max(Get(s.ownRead, op.place, 0), op.upTo)]
       else s.ownRead
  }

  /** Of the workers only that of `kind` may be elsewhere. */
  ghost predicate MovesOnly(s: State, t: State, kind: Kind) {
    kind in t.pcs && t.pcs == s.pcs[kind := t.pcs[kind]]
  }

  /** The worker of `kind` goes on with its batch, and not to put it off. */
  ghost predicate Proceeds(t: State, kind: Kind, batch: seq<string>) {
    kind in t.pcs && t.pcs[kind].Batch() == batch && !t.pcs[kind].PutsOff()
  }

  ghost predicate Silent(s: State, t: State) {
    && t.calls == s.calls && t.readMarks == s.readMarks && t.ownRead == s.ownRead
    && t.held == s.held && t.loaded == s.loaded && t.closed == s.closed && t.expire == s.expire
  }

  ghost predicate Spoken(s: State, t: State) {
    && OneCall(s, t) && Announces(s, t)
    && t.readMarks == s.readMarks && t.starts == s.starts && t.albums == s.albums && t.ownSent == s.ownSent
  }

  /** When tlgr last sent to a chat changes with a reply that goes out, and with nothing else. */
  ghost predicate Announces(s: State, t: State) {
    t.ownSendAt
    == if |t.calls| > |s.calls| && t.calls[|s.calls|].op.SendOp?
       then s.ownSendAt[t.calls[|s.calls|].op.chatId := s.now] else s.ownSendAt
  }

  // ---- submission ----------------------------------------------------------------------

  datatype Answer = Scheduled | Duplicate | AlbumMember | Full

  function SubmitAnswer(s: State, item: PendingItem, album: Option<Album>): Answer {
    if item.key != "" && (item.key in s.q.keys || item.key in s.q.recent) then Duplicate
    else if album.Some? && album.value in s.albums && s.albums[album.value].itemId.Some? then AlbumMember
    else if |s.q.items| >= MAX_PENDING then Full
    else Scheduled
  }

  /** The album's item moves to the message with the caption, once, while it is pending. */
  predicate MovesToCaption(s: State, memo: Memo, hasCaption: bool) {
    memo.itemId.Some? && Pending(s.q, memo.itemId.value) && hasCaption && !memo.hasCaption
  }

  function CaptionMoved(q: Queue, id: string, msgId: int): Queue
    requires id in q.items
  {
    Edited(q, q.items[id].(msgId := msgId))
  }

  function SubmittedQueue(s: State, item: PendingItem, album: Option<Album>, hasCaption: bool): Queue {
    match SubmitAnswer(s, item, album)
    case Duplicate => s.q
    case AlbumMember =>
      var memo := s.albums[album.value];
      Tallied(if MovesToCaption(s, memo, hasCaption) then CaptionMoved(s.q, memo.itemId.value, item.msgId) else s.q,
              SlotOf(item), item.action, Skipped)
    case Full => Tallied(s.q, SlotOf(item), item.action, Errors)
    case Scheduled => Inserted(s.q, item)
  }

  /** A further message of an album that has its item already. */
  function JoinedAlbum(s: State, item: PendingItem, album: Album, hasCaption: bool): State
    requires album in s.albums
  {
    var memo := s.albums[album];
    if MovesToCaption(s, memo, hasCaption) then
      s.(q := Tallied(CaptionMoved(s.q, memo.itemId.value, item.msgId), SlotOf(item), item.action, Skipped),
         albums := s.albums[album := memo.(hasCaption := true)])
    else s.(q := Tallied(s.q, SlotOf(item), item.action, Skipped))
  }

  /** The roll of an album; one that was never rolled for counts as let through. */
  function RollOf(s: State, album: Album): bool {
    if album in s.albums then s.albums[album].roll else true
  }

  /** An accepted item joins the queue, and its album remembers it. */
  function Enqueued(s: State, item: PendingItem, album: Option<Album>, hasCaption: bool): State {
    if album.None? then s.(q := Inserted(s.q, item))
    else
      s.(q := Inserted(s.q, item),
         albums := s.albums[album.value := Memo(RollOf(s, album.value), Some(item.id), hasCaption)],
         albumOrder := if album.value in s.albums then s.albumOrder else s.albumOrder + [album.value])
  }

  /** What a submission does, by its answer. */
  function Answered(s: State, answer: Answer, item: PendingItem, album: Option<Album>, hasCaption: bool): State
    requires answer == AlbumMember ==> album.Some? && album.value in s.albums
  {
    match answer
    case Duplicate => s
    case AlbumMember => JoinedAlbum(s, item, album.value, hasCaption)
    case Full => s.(q := Tallied(s.q, SlotOf(item), item.action, Errors))
    case Scheduled => Enqueued(s, item, album, hasCaption)
  }

  function Submitted(s: State, item: PendingItem, album: Option<Album>, hasCaption: bool): (t: State)
    ensures t == s.(q := SubmittedQueue(s, item, album, hasCaption), albums := t.albums, albumOrder := t.albumOrder)
  {
    match SubmitAnswer(s, item, album)
    case Duplicate => s
    case AlbumMember => JoinedAlbum(s, item, album.value, hasCaption)
    case Full => s.(q := Tallied(s.q, SlotOf(item), item.action, Errors))
    case Scheduled => Enqueued(s, item, album, hasCaption)
  }

  /** A submission answers by its guards, and does what its answer says. */
  lemma SubmittedByAnswer(s: State, item: PendingItem, album: Option<Album>, hasCaption: bool)
    ensures Submitted(s, item, album, hasCaption)
            == Answered(s, SubmitAnswer(s, item, album), item, album, hasCaption)
  {
    match SubmitAnswer(s, item, album)
    case Duplicate =>
    case AlbumMember =>
    case Full =>
    case Scheduled =>
  }

  /** The first `n` of the albums, in the order they came. */
  function Oldest(order: seq<Album>, n: nat): set<Album>
    requires n <= |order|
  {
    set i | 0 <= i < n :: order[i]
  }

  /** An album that was not seen yet, and what is forgotten for it. */
  function Remembering(s: State, album: Album, roll: bool, order: seq<Album>, kept: seq<Album>): (t: State)
    requires |kept| <= |order|
    ensures t.q == s.q
    ensures Silent(s, t)
  {
    s.(albums := s.albums[album := Memo(roll, None, false)] - Oldest(order, |order| - |kept|), albumOrder := kept)
  }

  /** `album_roll` remembers an album it has not seen, and at most 2000 of them. */
  function Rolled(s: State, album: Album, roll: bool): (t: State)
    ensures t.q == s.q
    ensures Silent(s, t)
  {
    if album in s.albums then s
    else
      var order := s.albumOrder + [album];
      Remembering(s, album, roll, order, LastN(order, ALBUM_MEMORY))
  }

  // ---- settling an execution -------------------------------------------------------------

  /** Where the drawn due time of a retry must lie. */
  predicate DueDrawn(verdict: Verdict, attempts: nat, now: real, due: real) {
    match verdict
    case Flood(wait) => now + wait + 1.0 <= due <= now + wait + 5.0
    case Transient => now + Backoff(attempts) <= due <= now + Backoff(attempts) * 1.5
    case _ => true
  }

  /** The item with the failure on its account. */
  function Hit(item: PendingItem, verdict: Verdict): PendingItem {
    match verdict
    case Flood(_) => item.(floods := item.floods + 1, lastError := "RATE_LIMITED")
    case Transient => item.(attempts := item.attempts + 1, lastError := "RETRYABLE")
    case Fatal => item.(attempts := item.attempts + 1, lastError := "FATAL")
    case _ => item
  }

  datatype Fate = Leaves(outcome: Outcome) | Stays(due: real)

  /** What settling its execution makes of an item: out of the queue with an outcome, or in it with a new due time.
      A doomed item leaves however the execution came out. */
  function FateOf(hit: PendingItem, verdict: Verdict, doomed: bool, limit: nat, due: real): Fate {
    if doomed then Leaves(Superseded)
    else
      match verdict
      case Ok => Leaves(Done)
      case NothingToDo => Leaves(Skipped)
      case Later(at) => Stays(at)
      case Flood(_) => if hit.floods > MAX_FLOOD_RETRIES then Leaves(Errors) else Stays(due)
      case Transient => if hit.attempts <= limit then Stays(due) else Leaves(Errors)
      case Fatal => Leaves(Errors)
  }

  /** One item of a batch after its execution, by how the execution came out. */
  function SettledOne(q: Queue, id: string, verdict: Verdict, limit: nat, due: real): Queue
    requires id in q.items
  {
    var hit := Hit(q.items[id], verdict);
    match FateOf(hit, verdict, id in q.cancelled, limit, due)
    case Leaves(outcome) => Finished(q, hit, outcome)
    case Stays(at) => Requeued(q, hit.(dueAt := at))
  }

  function Settled(q: Queue, ids: seq<string>, verdict: Verdict, limit: nat, dues: seq<real>): Queue
    requires |dues| == |ids|
  {
    if ids == [] then q
    else
      var n := |ids| - 1;
      var r := Settled(q, ids[..n], verdict, limit, dues[..n]);
      if ids[n] in r.items then SettledOne(r, ids[n], verdict, limit, dues[n]) else r
  }

  ghost predicate DuesDrawn(q: Queue, ids: seq<string>, verdict: Verdict, now: real, dues: seq<real>) {
    && |dues| == |ids|
    && forall i :: 0 <= i < |ids| && ids[i] in q.items ==>
         DueDrawn(verdict, q.items[ids[i]].attempts + 1, now, dues[i])
  }

  function SettledState(s: State, kind: Kind, batch: seq<string>, verdict: Verdict, dues: seq<real>): (t: State)
    requires |dues| == |batch| && kind in s.pacers
    ensures Silent(s, t)
  {
    s.(q := Settled(s.q, batch, verdict, RetryLimit(s, kind), dues),
       pcs := s.pcs[kind := Idle],
       pacers := if verdict.Flood?
                 then s.pacers[kind := Pacing.Penalized(s.pacers[kind], s.now, verdict.wait)]
                 else s.pacers)
  }

  // ---- the stretches of a worker -------------------------------------------------------------

  /** What `_step` does with the item `_peek` gave it, when that item is due. */
  datatype Choice =
    | Expire
    | Hold(due: real)
    | TooSoon
    | RunDry(batch: seq<string>, dues: seq<real>)
    | Run(batch: seq<string>, jitter: real)

  ghost predicate ChoiceOk(s: State, kind: Kind, head: string, choice: Choice)
    requires kind in s.pacers && head in s.q.items
  {
    var item := s.q.items[head];
    var quiet := QuietUntil(item, s.now);
    var looked := Pacing.Looked(s.pacers[kind], s.now);
    if PastExpiry(item, s.now) then choice == Expire
    else if quiet.Some? then choice.Hold? && quiet.value <= choice.due <= quiet.value + QUIET_RELEASE_SPREAD
    else if item.dryRun then
      choice.RunDry? && IsBatch(s.q, head, choice.batch, s.now) && |choice.dues| == |choice.batch|
    else if Pacing.Wait(looked, s.now) > 0.0 then choice == TooSoon
    else choice.Run? && IsBatch(s.q, head, choice.batch, s.now) && Pacing.Jitter(choice.jitter)
  }

  /** The executed batch, on record. */
  function StartsWith(s: State, head: string, batch: seq<string>): seq<Startup>
    requires head in s.q.items && forall id :: id in batch ==> id in s.q.items
  {
    s.starts + [Startup(s.now, s.q.items[head], ItemsAt(s.q, batch))]
  }

  function RanDry(s: State, kind: Kind, head: string, batch: seq<string>, dues: seq<real>): (t: State)
    requires kind in s.pacers && |dues| == |batch|
    requires head in s.q.items && forall id :: id in batch ==> id in s.q.items
    ensures Silent(s, t)
  {
    s.(q := Settled(AllLaunched(s.q, batch), batch, Ok, RetryLimit(s, kind), dues),
       starts := StartsWith(s, head, batch))
  }

  function Ran(s: State, kind: Kind, head: string, batch: seq<string>, jitter: real): (t: State)
    requires kind in s.pacers
    requires head in s.q.items && forall id :: id in batch ==> id in s.q.items
    ensures Silent(s, t)
  {
    s.(q := AllLaunched(s.q, batch),
       starts := StartsWith(s, head, batch),
       pacers := s.pacers[kind := Pacing.Consumed(Pacing.Looked(s.pacers[kind], s.now), s.now, jitter)],
       pcs := s.pcs[kind := Opening(batch)])
  }

  function GivenUp(s: State, head: string): (t: State)
    requires head in s.q.items
    ensures Silent(s, t)
  {
    s.(q := Finished(s.q, s.q.items[head], Expired))
  }

  function PutOff(s: State, head: string, due: real): (t: State)
    requires head in s.q.items
    ensures Silent(s, t)
  {
    s.(q := Edited(s.q, s.q.items[head].(dueAt := due)))
  }

  function Waited(s: State, kind: Kind): (t: State)
    requires kind in s.pacers
    ensures Silent(s, t)
  {
    s.(pacers := s.pacers[kind := Pacing.Looked(s.pacers[kind], s.now)])
  }

  function Stepped(s: State, kind: Kind, head: string, choice: Choice): (t: State)
    requires kind in s.pacers && head in s.q.items
    requires choice.RunDry? ==> |choice.dues| == |choice.batch|
    requires choice.RunDry? || choice.Run? ==> forall id :: id in choice.batch ==> id in s.q.items
    ensures Silent(s, t)
  {
    match choice
    case Expire => GivenUp(s, head)
    case Hold(due) => PutOff(s, head, due)
    case TooSoon => Waited(s, kind)
    case RunDry(batch, dues) => RanDry(s, kind, head, batch, dues)
    case Run(batch, jitter) => Ran(s, kind, head, batch, jitter)
  }

  function Called(s: State, op: Op, items: seq<PendingItem>): State {
    s.(calls := s.calls + [Call(op, items)])
  }

  predicate AnyMention(items: seq<PendingItem>) {
    exists i :: 0 <= i < |items| && items[i].payload.mentions
  }

  predicate AnyReaction(items: seq<PendingItem>) {
    exists i :: 0 <= i < |items| && items[i].payload.reactions
  }

  /** A read for a batch clears the badges its items ask for; one for a reaction clears none. */
  function ReadFor(kind: Kind, place: Place, target: int, items: seq<PendingItem>): Op {
    ReadOp(place, target, kind == Read && AnyMention(items), kind == Read && AnyReaction(items))
  }

  /** `begin_read`, then `message.read` goes out. */
  function ReadIssued(s: State, kind: Kind, batch: seq<string>, place: Place, target: int,
                      items: seq<PendingItem>): (t: State)
    ensures t.q == s.q && t.pacers == s.pacers
    ensures Spoken(s, t)
    ensures MovesOnly(s, t, kind)
    ensures Proceeds(t, kind, batch)
    ensures t.now == s.now
  {
    Called(s.(ownRead := s.ownRead[place := Max(Get(s.ownRead, place, 0), target)],
              pcs := s.pcs[kind := Reading(batch, target)]),
           ReadFor(kind, place, target, items), items)
  }

  /** The rest of `ensure_read`, up to `reaction.add` going out: pending reads it satisfied are done. */
  function ReactIssued(s: State, batch: seq<string>, item: PendingItem, sweep: seq<string>): (t: State)
    ensures t.q == AllFinished(s.q, sweep, Done) && t.pacers == s.pacers
    ensures Spoken(s, t)
    ensures MovesOnly(s, t, React)
    ensures Proceeds(t, React, batch)
    ensures t.now == s.now
  {
    Called(s.(q := AllFinished(s.q, sweep, Done), pcs := s.pcs[React := Acting(batch)]),
           ReactionOp(PlaceOf(item), item.msgId, Get(s.readMarks, PlaceOf(item), 0)), [item])
  }

  /** The read pacer's slot is taken, at a moment no earlier than when it was found open. */
  function ReadSlotTaken(s: State, later: real, jitter: real): (t: State)
    requires Read in s.pacers
    ensures Silent(s, t) && t.q == s.q && t.starts == s.starts && t.pcs == s.pcs
    ensures t.now == later
  {
    s.(pacers := s.pacers[Read := Pacing.Consumed(Pacing.Looked(s.pacers[Read], s.now), later, jitter)],
       now := later)
  }

  function ReadSleeps(s: State, batch: seq<string>): (t: State)
    requires Read in s.pacers
    ensures Silent(s, t) && t.q == s.q && t.starts == s.starts
    ensures MovesOnly(s, t, React)
    ensures Proceeds(t, React, batch)
    ensures t.now == s.now
  {
    s.(pacers := s.pacers[Read := Pacing.Looked(s.pacers[Read], s.now)], pcs := s.pcs[React := Pacing(batch)])
  }

  /** The read pacer is open: its slot is taken, and the read goes out. */
  function ReadTaken(s: State, batch: seq<string>, item: PendingItem, later: real, jitter: real): (t: State)
    requires Read in s.pacers
    ensures t.q == s.q && t.pacers == ReadSlotTaken(s, later, jitter).pacers
    ensures Spoken(s, t)
    ensures MovesOnly(s, t, React)
    ensures Proceeds(t, React, batch)
    ensures t.now == later
  {
    var m := ReadSlotTaken(s, later, jitter);
    assert Silent(s, m);
    ReadIssued(m, React, batch, PlaceOf(item), item.msgId, [item])
  }

  /** `ensure_read` asks the read pacer: sleep again, or take the slot and read. */
  function ReadPaced(s: State, batch: seq<string>, item: PendingItem, later: real, jitter: real): (t: State)
    requires Read in s.pacers
    ensures t.q == s.q
    ensures t.pacers == ReadSleeps(s, batch).pacers || t.pacers == ReadSlotTaken(s, later, jitter).pacers
    ensures Spoken(s, t)
    ensures MovesOnly(s, t, React)
    ensures Proceeds(t, React, batch)
    ensures t.now == s.now || t.now == later
  {
    if Pacing.Wait(Pacing.Looked(s.pacers[Read], s.now), s.now) > 0.0 then ReadSleeps(s, batch)
    else ReadTaken(s, batch, item, later, jitter)
  }

  function Ids(items: seq<PendingItem>): set<int> {
    set i | 0 <= i < |items| :: items[i].msgId
  }

  predicate AnyBadge(items: seq<PendingItem>) {
    AnyMention(items) || AnyReaction(items)
  }

  function TypingSeconds(item: PendingItem): real {
    if item.payload.typingFor == 0.0 then TYPING_MIN else item.payload.typingFor
  }

  predicate ShowsTyping(item: PendingItem) {
    item.phase == Start && item.payload.typing && !item.broadcast
  }

  function ReactBegun(s: State, batch: seq<string>, item: PendingItem, later: real, jitter: real,
                      sweep: seq<string>): (t: State)
    requires Read in s.pacers
    ensures t.q == s.q || t.q == AllFinished(s.q, sweep, Done)
    ensures t.pacers == s.pacers || t.pacers == ReadPaced(s, batch, item, later, jitter).pacers
    ensures Spoken(s, t)
    ensures MovesOnly(s, t, React)
    ensures Proceeds(t, React, batch)
    ensures t.now == s.now || t.now == later
  {
    if Get(s.readMarks, PlaceOf(item), 0) < item.msgId then ReadPaced(s, batch, item, later, jitter)
    else ReactIssued(s, batch, item, sweep)
  }

  /** A read that is no news, and clears no badge, sends nothing. */
  ghost function ReadBegun(s: State, batch: seq<string>, items: seq<PendingItem>): (t: State)
    requires items != []
    ensures t.q == s.q && t.pacers == s.pacers
    ensures Spoken(s, t)
    ensures MovesOnly(s, t, Read)
    ensures Proceeds(t, Read, batch)
    ensures t.now == s.now
  {
    var place := PlaceOf(items[0]);
    if Get(s.readMarks, place, 0) >= Highest(items) && !AnyBadge(items)
    then s.(pcs := s.pcs[Read := Closing(batch, Ok)])
    else ReadIssued(s, Read, batch, place, Highest(items), items)
  }

  ghost function ViewBegun(s: State, batch: seq<string>, items: seq<PendingItem>): (t: State)
    requires items != []
    ensures t.q == s.q && t.pacers == s.pacers
    ensures Spoken(s, t)
    ensures MovesOnly(s, t, View)
    ensures Proceeds(t, View, batch)
    ensures t.now == s.now
  {
    Called(s.(pcs := s.pcs[View := Acting(batch)]),
           ViewOp(items[0].chatId, items[0].payload.mode, Cut(Ids(items), MAX_BATCH)), items)
  }

  /** The reply is in its second phase, and is to be put back when typing ends. */
  ghost predicate TypesFirst(s: State, batch: seq<string>, item: PendingItem, t: State) {
    && t.q == Edited(s.q, item.(phase := Send))
    && Reply in t.pcs && t.pcs[Reply] == Closing(batch, Later(s.now + TypingSeconds(item)))
  }

  function TypingBegun(s: State, batch: seq<string>, item: PendingItem): (t: State)
    ensures Silent(s, t) && t.pacers == s.pacers
    ensures MovesOnly(s, t, Reply)
  {
    s.(q := Edited(s.q, item.(phase := Send)),
       pcs := s.pcs[Reply := Closing(batch, Later(s.now + TypingSeconds(item)))])
  }

  /** A reply shows typing first and is put back until typing ends; then it is sent. */
  function ReplyBegun(s: State, batch: seq<string>, item: PendingItem): (t: State)
    ensures t.q == s.q || t.q == Edited(s.q, item.(phase := Send))
    ensures Spoken(s, t) && t.pacers == s.pacers
    ensures MovesOnly(s, t, Reply)
    ensures if ShowsTyping(item) then TypesFirst(s, batch, item, t) else t.q == s.q && Proceeds(t, Reply, batch)
    ensures t.now == s.now
  {
    if ShowsTyping(item) then Called(TypingBegun(s, batch, item), TypingOp(item.chatId, TypingSeconds(item)), [item])
    else ReplySent(s, batch, item)
  }

  function ReplySent(s: State, batch: seq<string>, item: PendingItem): State {
    Called(s.(ownSendAt := s.ownSendAt[item.chatId := s.now], pcs := s.pcs[Reply := Acting(batch)]),
           SendOp(item.chatId, item.msgId), [item])
  }

  function ForwardBegun(s: State, batch: seq<string>, item: PendingItem): (t: State)
    ensures t.q == s.q && t.pacers == s.pacers
    ensures Spoken(s, t)
    ensures MovesOnly(s, t, Forward)
    ensures Proceeds(t, Forward, batch)
    ensures t.now == s.now
  {
    Called(s.(pcs := s.pcs[Forward := Acting(batch)]), ForwardOp(item.chatId, item.msgId, item.payload.to), [item])
  }

  /** The first stretch of the action's `execute`, once `presence.before` has returned. */
  ghost function Begun(s: State, kind: Kind, later: real, jitter: real, sweep: seq<string>): (t: State)
    requires kind in s.pcs && s.pcs[kind].Opening? && Read in s.pacers
    requires s.pcs[kind].batch != [] && forall id :: id in s.pcs[kind].batch ==> id in s.q.items
    ensures kind == React ==> t.q == s.q || t.q == AllFinished(s.q, sweep, Done)
    ensures kind == Reply ==> t.q == s.q || t.q == Edited(s.q, s.q.items[s.pcs[kind].batch[0]].(phase := Send))
    ensures kind !in {React, Reply} ==> t.q == s.q
    ensures || t.pacers == s.pacers
            || t.pacers == ReadPaced(s, s.pcs[kind].batch, s.q.items[s.pcs[kind].batch[0]], later, jitter).pacers
    ensures Spoken(s, t)
    ensures MovesOnly(s, t, kind)
    ensures t.now == s.now || t.now == later
  {
    var batch := s.pcs[kind].batch;
    var item := s.q.items[batch[0]];
    match kind
    case React => ReactBegun(s, batch, item, later, jitter, sweep)
    case Read => ReadBegun(s, batch, ItemsAt(s.q, batch))
    case View => ViewBegun(s, batch, ItemsAt(s.q, batch))
    case Forward => ForwardBegun(s, batch, item)
    case Reply => ReplyBegun(s, batch, item)
  }

  /** `note_read` */
  function Noted(s: State, place: Place, target: int): State {
    s.(readMarks := s.readMarks[place := Max(Get(s.readMarks, place, 0), target)])
  }

  /** `message.read` answered: `note_read`, and a reaction goes on to `reaction.add`. */
  function ReadAnswered(s: State, kind: Kind, batch: seq<string>, item: PendingItem, target: int,
                        sweep: seq<string>): (t: State)
    ensures t.q == if kind == React then AllFinished(s.q, sweep, Done) else s.q
    ensures t.readMarks == Noted(s, PlaceOf(item), target).readMarks
    ensures OneCall(s, t)
  {
    var noted := Noted(s, PlaceOf(item), target);
    if kind == React then ReactIssued(noted, batch, item, sweep)
    else noted.(pcs := noted.pcs[kind := Closing(batch, Ok)])
  }

  datatype Sent = Sent(chatId: int, ids: seq<int>)

  function NonZero(ids: seq<int>): seq<int> {
    if ids == [] then []
    else NonZero(ids[..|ids| - 1]) + if ids[|ids| - 1] == 0 then [] else [ids[|ids| - 1]]
  }

  /** `note_sent`: the ids just sent, and when. */
  function SentTo(s: State, chatId: int, ids: seq<int>): (t: State)
    ensures Silent(s, t) && t.pacers == s.pacers && t.q == s.q && t.pcs == s.pcs
  {
    if chatId == 0 then s
    else s.(ownSent := s.ownSent[chatId := LastN(Get(s.ownSent, chatId, []) + NonZero(ids), SENT_MEMORY)],
            ownSendAt := s.ownSendAt[chatId := s.now])
  }

  /** `note_sent`, for each message the answer reports. */
  function SentNoted(s: State, sent: seq<Sent>): (t: State)
    ensures Silent(s, t) && t.pacers == s.pacers && t.q == s.q && t.pcs == s.pcs
  {
    if sent == [] then s
    else SentTo(SentNoted(s, sent[..|sent| - 1]), sent[|sent| - 1].chatId, sent[|sent| - 1].ids)
  }

  // ---- events -------------------------------------------------------------------------------------

  datatype Event =
    | Tick(t: real)
    | Configure(rules: map<Kind, Pacing.Rule>, expire: map<Kind, Option<real>>)
    | Preload(file: File)
    | Resume(active: set<string>)
    | Close
    | Submit(item: PendingItem, album: Option<Album>, hasCaption: bool)
    | AlbumRoll(rolled: Album, roll: bool)
    | CountOnly(slot: Slot, action: Kind, outcome: Outcome)
    | CancelItems(selector: Selector, drops: seq<string>)
    | ForgetJob(job: string)
    | ExternalRead(place: Place, maxId: int, drops: seq<string>)
    | Outgoing(chatId: int, msgId: int, drops: seq<string>)
    | Step(kind: Kind, head: string, choice: Choice)
    | Begin(kind: Kind, later: real, jitter: real, sweep: seq<string>)
    | Wake(kind: Kind, later: real, jitter: real)
    | ReadDone(kind: Kind, sweep: seq<string>)
    | ActDone(kind: Kind, sent: seq<Sent>)
    | Break(kind: Kind, verdict: Verdict)
    | Settle(kind: Kind, verdict: Verdict, dues: seq<real>)
    | Stop(kind: Kind)

  /** `ensure_read` sweeps only on the stretch that reaches `reaction.add`. */
  ghost predicate SweepOk(s: State, place: Place, target: int, sweep: seq<string>) {
    Enumerates(sweep, SatisfiedReads(s.q, place, target))
  }

  ghost predicate BatchLive(s: State, kind: Kind) {
    && kind in s.pcs && !s.pcs[kind].Idle? && kind in s.pacers && Read in s.pacers
    && s.pcs[kind].Batch() != []
    && forall id :: id in s.pcs[kind].Batch() ==> id in s.q.items
  }

  /** Events of the workers; the others are updates, commands and the clock. */
  ghost predicate OfWorker(e: Event) {
    e.Step? || e.Begin? || e.Wake? || e.ReadDone? || e.ActDone? || e.Break? || e.Settle? || e.Stop?
  }

  ghost predicate EnabledOutside(s: State, e: Event) {
    match e
    case Tick(t) => s.now <= t
    case Configure(rules, _) => forall k :: k in rules ==> rules[k].every >= 0.0
    case Preload(file) =>
      !s.loaded && (forall i, j :: 0 <= i < j < |file.items| ==> file.items[i].Id() != file.items[j].Id())
    case Resume(_) => s.loaded && !s.resumed
    case Close => true
    case Submit(item, _, _) => s.loaded && item.id !in s.q.ledger.used && item.id !in IdsOf(s.held)
    case AlbumRoll(_, _) => s.loaded
    case CountOnly(_, _, _) => s.loaded
    case CancelItems(sel, drops) => Enumerates(drops, ToCancel(s.q, sel))
    case ForgetJob(_) => s.loaded
    case ExternalRead(place, maxId, drops) => Enumerates(drops, ReadTakeover(s, place, maxId))
    case Outgoing(chatId, msgId, drops) => Enumerates(drops, SendTakeover(s, chatId, msgId))
    case _ => false
  }

  ghost predicate EnabledStep(s: State, kind: Kind, head: string, choice: Choice) {
    && !s.closed && kind in s.pcs && s.pcs[kind].Idle? && kind in s.pacers
    && IsPeek(s.q, kind, head) && s.q.items[head].dueAt <= s.now
    && ChoiceOk(s, kind, head, choice)
  }

  ghost predicate EnabledBegin(s: State, kind: Kind, later: real, jitter: real, sweep: seq<string>) {
    && BatchLive(s, kind) && s.pcs[kind].Opening? && s.now <= later && Pacing.Jitter(jitter)
    && (kind == React ==>
          var item := s.q.items[s.pcs[kind].batch[0]];
          SweepOk(s, PlaceOf(item), item.msgId, sweep))
  }

  ghost predicate EnabledWorker(s: State, e: Event) {
    match e
    case Step(kind, head, choice) => EnabledStep(s, kind, head, choice)
    case Begin(kind, later, jitter, sweep) => EnabledBegin(s, kind, later, jitter, sweep)
    case Wake(kind, later, jitter) =>
      kind == React && BatchLive(s, kind) && s.pcs[kind].Pacing? && s.now <= later && Pacing.Jitter(jitter)
    case ReadDone(kind, sweep) =>
      && BatchLive(s, kind) && s.pcs[kind].Reading?
      && (kind == React ==>
            SweepOk(s, PlaceOf(s.q.items[s.pcs[kind].batch[0]]), s.pcs[kind].target, sweep))
    case ActDone(kind, sent) => BatchLive(s, kind) && s.pcs[kind].Acting? && (kind in {React, View} ==> sent == [])
    case Break(kind, verdict) =>
      BatchLive(s, kind) && !s.pcs[kind].Opening? && !s.pcs[kind].Closing? && verdict.Failing()
    case Settle(kind, verdict, dues) =>
      && BatchLive(s, kind) && (s.pcs[kind].Opening? || s.pcs[kind].Closing?)
      && (verdict.Failing() || (s.pcs[kind].Closing? && verdict == s.pcs[kind].verdict))
      && DuesDrawn(s.q, s.pcs[kind].batch, verdict, s.now, dues)
    case Stop(kind) => BatchLive(s, kind)
    case _ => false
  }

  ghost predicate Enabled(s: State, e: Event) {
    if OfWorker(e) then EnabledWorker(s, e) else EnabledOutside(s, e)
  }

  function RuleFor(rules: map<Kind, Pacing.Rule>, kind: Kind): Pacing.Rule {
    if kind in rules then rules[kind] else DefaultRule(kind)
  }

  function Reconfigured(pacers: map<Kind, Pacing.PacerState>, rules: map<Kind, Pacing.Rule>)
    : map<Kind, Pacing.PacerState>
  {
    map k | k in pacers :: pacers[k].(rule := RuleFor(rules, k))
  }

  ghost function NextOutside(s: State, e: Event): (t: State)
    requires !OfWorker(e)
    ensures t.calls == s.calls && t.ownRead == s.ownRead
    ensures t.readMarks == if e.ExternalRead? then Noted(s, e.place, e.maxId).readMarks else s.readMarks
    ensures t.held == if e.Preload? then LoadedItems(e.file) else if e.Resume? then [] else s.held
    ensures t.loaded == (e.Preload? || s.loaded) && t.closed == (e.Close? || s.closed)
    ensures t.expire == if e.Configure? then e.expire else s.expire
  {
    match e
    case Tick(t) => s.(now := t)
    case Configure(rules, expire) => s.(pacers := Reconfigured(s.pacers, rules), expire := expire)
    case Preload(file) =>
      s.(loaded := true, held := LoadedItems(file), q := s.q.(recent := Preloaded(file)))
    case Resume(active) =>
      s.(resumed := true, held := [], q := Resumed(s.q, s.held, active))
    case Close => s.(closed := true)
    case Submit(item, album, hasCaption) => Submitted(s, item, album, hasCaption)
    case AlbumRoll(album, roll) => Rolled(s, album, roll)
    case CountOnly(slot, action, outcome) => s.(q := Tallied(s.q, slot, action, outcome))
    case CancelItems(sel, drops) =>
      s.(q := AllFinished(Doomed(s.q, ToDoom(s.q, sel)), drops, Superseded))
    case ForgetJob(job) => s.(q := Forgotten(s.q, job))
    case ExternalRead(place, maxId, drops) =>
      Noted(s, place, maxId).(q := AllFinished(s.q, drops, Superseded))
    case Outgoing(chatId, msgId, drops) => s.(q := AllFinished(s.q, drops, Superseded))
  }

  ghost function NextWorker(s: State, e: Event): (t: State)
    requires OfWorker(e) && EnabledWorker(s, e)
    ensures OneCall(s, t)
    ensures !e.ReadDone? ==> t.readMarks == s.readMarks
    ensures e.ReadDone? ==>
      t.readMarks == Noted(s, PlaceOf(s.q.items[s.pcs[e.kind].batch[0]]), s.pcs[e.kind].target).readMarks
  {
    match e
    case Step(kind, head, choice) => Stepped(s, kind, head, choice)
    case Begin(kind, later, jitter, sweep) => Begun(s, kind, later, jitter, sweep)
    case Wake(kind, later, jitter) =>
      ReadPaced(s, s.pcs[kind].batch, s.q.items[s.pcs[kind].batch[0]], later, jitter)
    case ReadDone(kind, sweep) =>
      ReadAnswered(s, kind, s.pcs[kind].batch, s.q.items[s.pcs[kind].batch[0]], s.pcs[kind].target, sweep)
    case ActDone(kind, sent) =>
      SentNoted(s.(pcs := s.pcs[kind := Closing(s.pcs[kind].batch, Ok)]), sent)
    case Break(kind, verdict) => s.(pcs := s.pcs[kind := Closing(s.pcs[kind].batch, verdict)])
    case Settle(kind, verdict, dues) => SettledState(s, kind, s.pcs[kind].batch, verdict, dues)
    case Stop(kind) =>
      s.(q := AllBrokenOff(s.q, s.pcs[kind].batch), pcs := s.pcs[kind := Idle])
  }

  ghost function Next(s: State, e: Event): State
    requires Enabled(s, e)
  {
    if OfWorker(e) then NextWorker(s, e) else NextOutside(s, e)
  }
}
