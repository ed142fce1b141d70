/** Pending job actions (`tlgr/gateway/pending.py`) and what the scheduler asks
    of each action kind (the hooks under `tlgr/actions`): which takeover modes cancel it,
    whether quiet hours hold it, and which items may run as one call. */
module Items {
  import opened Basics
  import opened QuietHours

  datatype Kind = React | Read | View | Forward | Reply

  datatype TakeoverMode = Cancel | CancelRead | Ignore

  /** `reply` is two steps of one item: typing, then send. */
  datatype Phase = Start | Send

  datatype ViewMode = CountViews | Contents

  /** What an item asks for beyond its chat and message; `to` is the chat a forward goes to. */
  datatype Payload = Payload(
    mentions: bool, reactions: bool, mode: ViewMode, typing: bool, typingFor: real, text: string, to: int)

  /** The persisted fields of an item. Whether it is running is not one of them. */
  datatype PendingItem = PendingItem(
    id: string, job: string, action: Kind, index: int,
    chatId: int, msgId: int, receivedAt: real, dueAt: real, expiresAt: Option<real>,
    broadcast: bool, topicId: Option<int>, phase: Phase, attempts: nat, floods: nat,
    quietHours: Option<QuietHours>, onTakeover: TakeoverMode, dryRun: bool,
    payload: Payload, key: string, lastError: string)

  /** A job's action slot: what the counters are kept for. */
  type Slot = (string, int)

  function SlotOf(item: PendingItem): Slot {
    (item.job, item.index)
  }

  /** `(chat, topic)`: what a read watermark belongs to. */
  type Place = (int, Option<int>)

  function PlaceOf(item: PendingItem): Place {
    (item.chatId, item.topicId)
  }

  // ---- attributes of the kinds ------------------------------------------------

  predicate CancelledBy(kind: Kind, mode: TakeoverMode) {
    match kind
    case React => mode == Cancel
    case Reply => mode == Cancel
    case Read => mode == Cancel || mode == CancelRead
    case View => mode == Cancel || mode == CancelRead
    case Forward => false
  }

  predicate QuietHold(kind: Kind) {
    kind != Forward
  }

  const DAY_OF_HOURS := 86400.0

  function DefaultExpiry(kind: Kind): Option<real> {
    match kind
    case React => Some(DAY_OF_HOURS)
    case View => Some(DAY_OF_HOURS)
    case Reply => Some(DAY_OF_HOURS)
    case Read => None
    case Forward => None
  }

  datatype BatchKey =
    | ReadTogether(place: Place, dryRun: bool)
    | ViewTogether(chatId: int, mode: ViewMode, dryRun: bool)

  function BatchKeyOf(item: PendingItem): Option<BatchKey> {
    match item.action
    case Read => Some(ReadTogether(PlaceOf(item), item.dryRun))
    case View => Some(ViewTogether(item.chatId, item.payload.mode, item.dryRun))
    case _ => None
  }

  // ---- when an item may start -----------------------------------------------------

  function QuietUntil(item: PendingItem, now: real): Option<real> {
    if !QuietHold(item.action) || item.quietHours.None? then None
    else if !item.quietHours.value.Contains(now) then None
    else Some(item.quietHours.value.WindowEnd(now))
  }

  predicate PastExpiry(item: PendingItem, now: real) {
    item.expiresAt.Some? && now >= item.expiresAt.value
  }

  /** Due, unexpired and outside its own quiet hours. */
  predicate MayStart(item: PendingItem, now: real) {
    item.dueAt <= now && !PastExpiry(item, now) && QuietUntil(item, now) == None
  }

  // ---- retry budgets ---------------------------------------------------------------

  const MAX_FLOOD_RETRIES := 10
  const PATIENT_RETRIES := 12
  const QUICK_RETRIES := 3
  const PATIENT_BACKOFF := 600.0

  /** `RETRY_BACKOFF_S`, then every ten minutes; asked with `attempts >= 1`. */
  function Backoff(attempts: nat): real {
    if attempts <= 1 then 5.0
    else if attempts == 2 then 30.0
    else if attempts == 3 then 120.0
    else PATIENT_BACKOFF
  }

  function Left(limit: nat, used: nat): nat {
    if used >= limit then 0 else limit - used
  }

  /** How often the item can still be put back in the queue after an execution. */
  function Budget(item: PendingItem): nat {
    Left(MAX_FLOOD_RETRIES, item.floods) + Left(PATIENT_RETRIES, item.attempts)
    + if item.phase == Start then 1 else 0
  }
}
