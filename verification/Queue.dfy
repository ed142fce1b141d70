/** The queue of `ActionScheduler` as a value: the live items with the sets,
    the key index, the recent keys and the counters kept beside them, and the
    small steps every scheduler operation is made of.

    Three ledgers ride along, so that statements about whole runs are
    statements about one state: what was handed in and what was wiped per job
    slot, when each key last finished, and how often each item was executed. */
module Queues {
  import opened Basics
  import opened Items

  const MAX_PENDING := 10000
  const RECENT_KEYS := 5000

  datatype Outcome = Done | Skipped | Superseded | Expired | Errors

  datatype Stats = Stats(action: Kind, done: nat, skipped: nat, superseded: nat, expired: nat, errors: nat) {
    function Total(): nat {
      done + skipped + superseded + expired + errors
    }

    function Plus(outcome: Outcome): Stats {
      match outcome
      case Done => this.(done := done + 1)
      case Skipped => this.(skipped := skipped + 1)
      case Superseded => this.(superseded := superseded + 1)
      case Expired => this.(expired := expired + 1)
      case Errors => this.(errors := errors + 1)
    }
  }

  datatype End = End(item: PendingItem, outcome: Outcome)

  datatype Ledger = Ledger(
    used: set<string>,              // every id ever inserted
    ended: map<string, End>,        // id -> how it left
    forgotten: set<string>,         // ids dropped with their job
    taken: map<Slot, nat>,          // what was handed in, per job slot
    wiped: map<Slot, nat>,          // counters and items thrown away, per job slot
    runs: map<string, nat>,         // id -> executions started
    stops: map<string, nat>,        // id -> executions broken off by a stop
    finishes: nat,                  // keyed finishes so far
    finishedAt: map<string, nat>,   // key -> its last finish
    scheduled: set<string>,         // every key ever scheduled
    forgottenKeys: set<string>)     // keys dropped unfinished with their job

  datatype Queue = Queue(
    items: map<string, PendingItem>,
    running: set<string>,
    cancelled: set<string>,
    keys: map<string, string>,
    recent: seq<string>,
    stats: map<Slot, Stats>,
    ledger: Ledger)

  const NO_LEDGER := Ledger({}, map[], {}, map[], map[], map[], map[], 0, map[], {}, {})
  const EMPTY := Queue(map[], {}, {}, map[], [], map[], NO_LEDGER)

  // ---- the steps ----------------------------------------------------------------

  function Bump<K>(m: map<K, nat>, k: K, n: nat): map<K, nat> {
    m[k := Get(m, k, 0) + n]
  }

  /** `stats_for`: the counters of a slot start over when its action changed. */
  function StatsFor(q: Queue, slot: Slot, action: Kind): Stats {
    if slot in q.stats && q.stats[slot].action == action then q.stats[slot]
    else Stats(action, 0, 0, 0, 0, 0)
  }

  function WithStats(q: Queue, slot: Slot, action: Kind): Queue {
    var lost := if slot in q.stats && q.stats[slot].action != action then q.stats[slot].Total() else 0;
    q.(stats := q.stats[slot := StatsFor(q, slot, action)],
       ledger := q.ledger.(wiped := Bump(q.ledger.wiped, slot, lost)))
  }

  /** `count` */
  function Counted(q: Queue, slot: Slot, action: Kind, outcome: Outcome): Queue {
    var r := WithStats(q, slot, action);
    r.(stats := r.stats[slot := r.stats[slot].Plus(outcome)])
  }

  /** `count` for something handed in that never becomes an item. */
  function Tallied(q: Queue, slot: Slot, action: Kind, outcome: Outcome): Queue {
    var r := Counted(q, slot, action, outcome);
    r.(ledger := r.ledger.(taken := Bump(r.ledger.taken, slot, 1)))
  }

  /** `_insert` */
  function Inserted(q: Queue, item: PendingItem): Queue {
    var r := WithStats(q, SlotOf(item), item.action);
    r.(items := r.items[item.id := item],
       keys := if item.key == "" then r.keys else r.keys[item.key := item.id],
       ledger := r.ledger.(
         used := r.ledger.used + {item.id},
         taken := Bump(r.ledger.taken, SlotOf(item), 1),
         scheduled := if item.key == "" then r.ledger.scheduled else r.ledger.scheduled + {item.key}))
  }

  /** `_remove` */
  function Removed(q: Queue, item: PendingItem): Queue {
    q.(items := q.items - {item.id},
       running := q.running - {item.id},
       cancelled := q.cancelled - {item.id},
       keys := if item.key != "" && item.key in q.keys && q.keys[item.key] == item.id
               then q.keys - {item.key} else q.keys)
  }

  /** Remembering a finished key evicts the oldest beyond the cap. */
  function Remembered(recent: seq<string>, key: string): seq<string> {
    if key == "" then recent
    else LastN(if key in recent then recent else recent + [key], RECENT_KEYS)
  }

  /** `_finish`: `item` as it is when it leaves. */
  function Finished(q: Queue, item: PendingItem, outcome: Outcome): Queue {
    var r := Counted(Removed(q, item), SlotOf(item), item.action, outcome);
    r.(recent := Remembered(r.recent, item.key),
       ledger := r.ledger.(
         ended := r.ledger.ended[item.id := End(item, outcome)],
         finishes := if item.key == "" then r.ledger.finishes else r.ledger.finishes + 1,
         finishedAt := if item.key == "" then r.ledger.finishedAt
                       else r.ledger.finishedAt[item.key := r.ledger.finishes + 1]))
  }

  /** `_reschedule`: back in the queue, and not running. */
  function Requeued(q: Queue, item: PendingItem): Queue {
    q.(items := q.items[item.id := item], running := q.running - {item.id})
  }

  /** The head of `_execute`: the item starts running. */
  function Launched(q: Queue, id: string): Queue {
    q.(running := q.running + {id}, ledger := q.ledger.(runs := Bump(q.ledger.runs, id, 1)))
  }

  /** A stop breaks the execution off: the item is pending again. */
  function BrokenOff(q: Queue, id: string): Queue {
    q.(running := q.running - {id}, ledger := q.ledger.(stops := Bump(q.ledger.stops, id, 1)))
  }

  /** An item edited in place: the caption of an album, the phase of a reply. */
  function Edited(q: Queue, item: PendingItem): Queue {
    q.(items := q.items[item.id := item])
  }

  /** `cancel`/`forget_job` on a running item: it will finish, never be requeued. */
  function Doomed(q: Queue, ids: set<string>): Queue {
    q.(cancelled := q.cancelled + ids)
  }

  ghost predicate Enumerates(ids: seq<string>, s: set<string>) {
    Distinct(ids) && forall id :: id in ids <==> id in s
  }

  /** Several finishes in a row, in the order the loop visits them. */
  function AllFinished(q: Queue, ids: seq<string>, outcome: Outcome): Queue {
    if ids == [] then q
    else
      var r := AllFinished(q, ids[..|ids| - 1], outcome);
      var id := ids[|ids| - 1];
      if id in r.items then Finished(r, r.items[id], outcome) else r
  }

  function AllLaunched(q: Queue, ids: seq<string>): Queue {
    if ids == [] then q else Launched(AllLaunched(q, ids[..|ids| - 1]), ids[|ids| - 1])
  }

  function AllBrokenOff(q: Queue, ids: seq<string>): Queue {
    if ids == [] then q else BrokenOff(AllBrokenOff(q, ids[..|ids| - 1]), ids[|ids| - 1])
  }

  // ---- forgetting a job ------------------------------------------------------------

  function OfJob(q: Queue, job: string): set<string> {
    set id | id in q.items && q.items[id].job == job
  }

  /** Items of one slot. */
  function Live(q: Queue, slot: Slot): set<string> {
    set id | id in q.items && SlotOf(q.items[id]) == slot
  }

  function CountOf(q: Queue, slot: Slot): nat {
    if slot in q.stats then q.stats[slot].Total() else 0
  }

  /** `forget_job`: pending items and counters go; running items are doomed. */
  function Forgotten(q: Queue, job: string): Queue {
    var gone := OfJob(q, job) - q.running;
    var goneKeys := set id | id in gone && q.items[id].key != "" :: q.items[id].key;
    q.(items := q.items - gone,
       cancelled := (q.cancelled - gone) + (OfJob(q, job) * q.running),
       keys := q.keys - goneKeys,
       stats := map slot | slot in q.stats && slot.0 != job :: q.stats[slot],
       ledger := q.ledger.(
         forgotten := q.ledger.forgotten + gone,
         forgottenKeys := q.ledger.forgottenKeys + goneKeys,
         wiped := map slot | slot in q.ledger.wiped.Keys + q.ledger.taken.Keys ::
                    Get(q.ledger.wiped, slot, 0)
                    + if slot.0 == job then CountOf(q, slot) + |Live(q, slot) - q.running| else 0))
  }

  // ---- what every step keeps -----------------------------------------------------------

  /** Sets and ledgers speak of the same ids: every id ever used is live, ended or forgotten, exactly one of them. */
  ghost predicate IdsOk(q: Queue) {
    && (forall id :: id in q.items ==> q.items[id].id == id)
    && q.running <= q.items.Keys
    && q.cancelled <= q.items.Keys
    && q.ledger.used == q.items.Keys + q.ledger.ended.Keys + q.ledger.forgotten
    && q.items.Keys !! q.ledger.ended.Keys
    && q.items.Keys !! q.ledger.forgotten
    && q.ledger.ended.Keys !! q.ledger.forgotten
  }

  /** `_keys` is the inverse of the live items' keys. */
  ghost predicate KeysOk(q: Queue) {
    && "" !in q.keys
    && (forall id :: id in q.items && q.items[id].key != "" ==>
          q.items[id].key in q.keys && q.keys[q.items[id].key] == id)
    && (forall k :: k in q.keys ==> q.keys[k] in q.items && q.items[q.keys[k]].key == k)
  }

  ghost predicate RecentOk(q: Queue) {
    && Distinct(q.recent)
    && (forall k :: k in q.keys ==> k !in q.recent)
  }

  /** A finished key stays blocked until it is live again, or `RECENT_KEYS` later finishes have evicted it. */
  ghost predicate Recency(q: Queue) {
    var l := q.ledger;
    && (forall i :: 0 <= i < |q.recent| && q.recent[i] in l.finishedAt ==>
          |q.recent| - 1 - i <= l.finishes - l.finishedAt[q.recent[i]])
    && (forall k :: k in l.finishedAt ==>
          || k in q.keys || k in q.recent || k in l.forgottenKeys
          || l.finishes - l.finishedAt[k] >= RECENT_KEYS)
    && (forall k :: k in l.finishedAt ==> l.finishedAt[k] <= l.finishes)
    && (forall k :: k in l.scheduled ==> k in q.keys || k in l.finishedAt || k in l.forgottenKeys)
    && (forall k :: k in q.keys ==> k in l.scheduled)
  }

  ghost predicate BalancedAt(q: Queue, slot: Slot, pending: int) {
    Get(q.ledger.taken, slot, 0) + pending
    == |Live(q, slot)| + CountOf(q, slot) + Get(q.ledger.wiped, slot, 0)
  }

  /** Everything handed in is live, counted or wiped, slot by slot. */
  ghost predicate Balanced(q: Queue) {
    forall slot: Slot :: BalancedAt(q, slot, 0)
  }

  const MAX_REQUEUES := 23

  /** Each execution but the last uses up budget, so executions are bounded. */
  ghost predicate RunsOk(q: Queue) {
    var l := q.ledger;
    && (forall id :: id in q.items ==>
          Get(l.runs, id, 0) + Budget(q.items[id])
          <= MAX_REQUEUES + Get(l.stops, id, 0) + if id in q.running then 1 else 0)
    && (forall id :: id in l.runs ==> id in l.used && l.runs[id] <= MAX_REQUEUES + 1 + Get(l.stops, id, 0))
  }

  ghost predicate QueueInv(q: Queue) {
    IdsOk(q) && KeysOk(q) && RecentOk(q) && Recency(q) && Balanced(q) && RunsOk(q)
  }

  /** The fields that identify the work and its slot; these never change. */
  ghost predicate SameWork(a: PendingItem, b: PendingItem) {
    a.id == b.id && a.job == b.job && a.action == b.action && a.index == b.index && a.key == b.key
  }

  lemma EmptyKeeps()
    ensures QueueInv(EMPTY)
  {
  }

  // ---- counters ------------------------------------------------------------------------

  lemma SameLive(q: Queue, r: Queue, slot: Slot)
    requires r.items == q.items
    ensures Live(r, slot) == Live(q, slot)
  {
  }

  lemma StatsKeepsAt(q: Queue, slot: Slot, action: Kind, s: Slot, n: int)
    requires BalancedAt(q, s, n)
    ensures BalancedAt(WithStats(q, slot, action), s, n)
  {
    SameLive(q, WithStats(q, slot, action), s);
  }

  lemma PlusIsBalanced(q: Queue, slot: Slot, outcome: Outcome, s: Slot, n: int)
    requires slot in q.stats && BalancedAt(q, s, n)
    ensures BalancedAt(q.(stats := q.stats[slot := q.stats[slot].Plus(outcome)]), s, if s == slot then n + 1 else n)
  {
    SameLive(q, q.(stats := q.stats[slot := q.stats[slot].Plus(outcome)]), s);
  }

  lemma CountedAddsOne(q: Queue, slot: Slot, action: Kind, outcome: Outcome, s: Slot, n: int)
    requires BalancedAt(q, s, n)
    ensures BalancedAt(Counted(q, slot, action, outcome), s, if s == slot then n + 1 else n)
  {
    StatsKeepsAt(q, slot, action, s, n);
    PlusIsBalanced(WithStats(q, slot, action), slot, outcome, s, n);
  }

  lemma TalliedKeeps(q: Queue, slot: Slot, action: Kind, outcome: Outcome)
    requires QueueInv(q)
    ensures QueueInv(Tallied(q, slot, action, outcome))
  {
    var w := Counted(q, slot, action, outcome);
    var r := Tallied(q, slot, action, outcome);
    forall s: Slot ensures BalancedAt(r, s, 0) {
      assert BalancedAt(q, s, 0);
      CountedAddsOne(q, slot, action, outcome, s, 0);
      SameLive(w, r, s);
    }
  }

  // ---- insertion ---------------------------------------------------------------------------

  ghost predicate Fresh(q: Queue, item: PendingItem) {
    && item.id !in q.ledger.used
    && (item.key != "" ==> item.key !in q.keys && item.key !in q.recent)
  }

  lemma OneMore<T>(a: set<T>, b: set<T>, x: T)
    requires x !in a && forall y :: y in b <==> y in a || y == x
    ensures |b| == |a| + 1
  {
    assert b == a + {x};
  }

  lemma LiveWith(q: Queue, item: PendingItem, r: Queue, s: Slot, id: string)
    requires item.id !in q.items && r.items == q.items[item.id := item]
    ensures id in Live(r, s) <==> id in Live(q, s) || (id == item.id && s == SlotOf(item))
  {
  }

  lemma OneMoreLive(q: Queue, item: PendingItem, r: Queue, s: Slot)
    requires item.id !in q.items && r.items == q.items[item.id := item]
    ensures |Live(r, s)| == |Live(q, s)| + if s == SlotOf(item) then 1 else 0
  {
    var a, b := Live(q, s), Live(r, s);
    forall id ensures id in b <==> id in a || (id == item.id && s == SlotOf(item)) { LiveWith(q, item, r, s, id); }
    if s == SlotOf(item) { OneMore(a, b, item.id); } else { assert b == a; }
  }

  lemma InsertedBalancesAt(q: Queue, item: PendingItem, s: Slot)
    requires BalancedAt(q, s, 0) && item.id !in q.items
    ensures BalancedAt(Inserted(q, item), s, 0)
  {
    var w := WithStats(q, SlotOf(item), item.action);
    assert BalancedAt(w, s, 0) by { StatsKeepsAt(q, SlotOf(item), item.action, s, 0); }
    OneMoreLive(w, item, Inserted(q, item), s);
  }

  lemma InsertedBalances(q: Queue, item: PendingItem)
    requires Balanced(q) && item.id !in q.items
    ensures Balanced(Inserted(q, item))
  {
    forall s: Slot ensures BalancedAt(Inserted(q, item), s, 0) {
      assert BalancedAt(q, s, 0);
      InsertedBalancesAt(q, item, s);
    }
  }

  lemma InsertedKeepsRuns(q: Queue, item: PendingItem)
    requires IdsOk(q) && RunsOk(q) && item.id !in q.ledger.used
    ensures RunsOk(Inserted(q, item))
  {
  }

  lemma InsertedKeepsKeys(q: Queue, item: PendingItem)
    requires IdsOk(q) && KeysOk(q) && RecentOk(q) && Fresh(q, item)
    ensures IdsOk(Inserted(q, item)) && KeysOk(Inserted(q, item)) && RecentOk(Inserted(q, item))
  {
  }

  lemma InsertedKeepsRecency(q: Queue, item: PendingItem)
    requires Recency(q) && Fresh(q, item)
    ensures Recency(Inserted(q, item))
  {
  }

  lemma InsertedKeeps(q: Queue, item: PendingItem)
    requires QueueInv(q) && Fresh(q, item)
    ensures QueueInv(Inserted(q, item))
  {
    InsertedBalances(q, item);
    InsertedKeepsRuns(q, item);
    InsertedKeepsKeys(q, item);
    InsertedKeepsRecency(q, item);
  }

  // ---- finishing ---------------------------------------------------------------------------

  /** `item` is a live item, as it is now or with its progress fields changed. */
  ghost predicate IsLive(q: Queue, item: PendingItem) {
    item.id in q.items && SameWork(item, q.items[item.id])
  }

  lemma OneLessLive(q: Queue, item: PendingItem, s: Slot)
    requires IsLive(q, item)
    ensures |Live(Removed(q, item), s)| == |Live(q, s)| - if s == SlotOf(item) then 1 else 0
  {
    assert item.id in Live(q, s) <==> s == SlotOf(item);
    assert Live(Removed(q, item), s) == Live(q, s) - {item.id};
  }

  lemma FinishedBalancesAt(q: Queue, item: PendingItem, outcome: Outcome, s: Slot)
    requires BalancedAt(q, s, 0) && IsLive(q, item)
    ensures BalancedAt(Finished(q, item, outcome), s, 0)
  {
    var w := Removed(q, item);
    var n := if s == SlotOf(item) then -1 else 0;
    assert BalancedAt(w, s, n) by { OneLessLive(q, item, s); }
    CountedAddsOne(w, SlotOf(item), item.action, outcome, s, n);
    SameLive(Counted(w, SlotOf(item), item.action, outcome), Finished(q, item, outcome), s);
  }

  lemma FinishedBalances(q: Queue, item: PendingItem, outcome: Outcome)
    requires Balanced(q) && IsLive(q, item)
    ensures Balanced(Finished(q, item, outcome))
  {
    forall s: Slot ensures BalancedAt(Finished(q, item, outcome), s, 0) {
      assert BalancedAt(q, s, 0);
      FinishedBalancesAt(q, item, outcome, s);
    }
  }

  lemma FinishedKeepsIds(q: Queue, item: PendingItem, outcome: Outcome)
    requires IdsOk(q) && RunsOk(q) && IsLive(q, item)
    ensures IdsOk(Finished(q, item, outcome)) && RunsOk(Finished(q, item, outcome))
  {
  }

  lemma FinishedKeepsKeys(q: Queue, item: PendingItem, outcome: Outcome)
    requires IdsOk(q) && KeysOk(q) && RecentOk(q) && IsLive(q, item)
    ensures KeysOk(Finished(q, item, outcome)) && RecentOk(Finished(q, item, outcome))
  {
    var r := Finished(q, item, outcome);
    if item.key != "" {
      assert q.keys[item.key] == item.id;
      DistinctAppend(q.recent, item.key);
    }
  }

  lemma FinishedKeepsPlace(q: Queue, item: PendingItem, outcome: Outcome, i: nat)
    requires RecentOk(q) && Recency(q) && item.key != "" && item.key !in q.recent
    requires var r := Finished(q, item, outcome); i < |r.recent| && r.recent[i] in r.ledger.finishedAt
    ensures var r := Finished(q, item, outcome);
      |r.recent| - 1 - i <= r.ledger.finishes - r.ledger.finishedAt[r.recent[i]]
  {
    var r := Finished(q, item, outcome);
    var grown := q.recent + [item.key];
    assert r.recent == LastN(grown, RECENT_KEYS);
    var d := |grown| - |r.recent|;
    assert r.recent[i] == grown[d + i];
    if d + i < |q.recent| { assert grown[d + i] == q.recent[d + i]; }
  }

  lemma FinishedKeepsRecency(q: Queue, item: PendingItem, outcome: Outcome)
    requires IdsOk(q) && KeysOk(q) && RecentOk(q) && Recency(q) && IsLive(q, item)
    ensures Recency(Finished(q, item, outcome))
  {
    var r := Finished(q, item, outcome);
    if item.key != "" {
      assert q.keys[item.key] == item.id;
      forall i | 0 <= i < |r.recent| && r.recent[i] in r.ledger.finishedAt
        ensures |r.recent| - 1 - i <= r.ledger.finishes - r.ledger.finishedAt[r.recent[i]]
      {
        FinishedKeepsPlace(q, item, outcome, i);
      }
      forall k | k in r.ledger.finishedAt
        ensures || k in r.keys || k in r.recent || k in r.ledger.forgottenKeys
                || r.ledger.finishes - r.ledger.finishedAt[k] >= RECENT_KEYS
      {
        FinishedKeepsBlock(q, item, outcome, k);
      }
    }
  }

  /** A remembered key stays unless as many are behind it as are remembered. */
  lemma RememberedKeeps(recent: seq<string>, key: string, i: nat)
    requires key != "" && key !in recent && i < |recent|
    ensures recent[i] in Remembered(recent, key) || |recent| - i >= RECENT_KEYS
  {
    var grown := recent + [key];
    var gone := |grown| - |LastN(grown, RECENT_KEYS)|;
    if i >= gone { assert LastN(grown, RECENT_KEYS)[i - gone] == grown[i] == recent[i]; }
  }

  lemma NewestIsRemembered(recent: seq<string>, key: string)
    requires key != "" && key !in recent
    ensures key in Remembered(recent, key)
  {
    var kept := LastN(recent + [key], RECENT_KEYS);
    assert kept[|kept| - 1] == key;
  }

  lemma FinishedParts(q: Queue, item: PendingItem, outcome: Outcome)
    requires IdsOk(q) && KeysOk(q) && IsLive(q, item) && item.key != ""
    ensures var r := Finished(q, item, outcome);
      && r.recent == Remembered(q.recent, item.key) && r.keys == q.keys - {item.key}
      && r.ledger.finishes == q.ledger.finishes + 1 && r.ledger.forgottenKeys == q.ledger.forgottenKeys
      && r.ledger.finishedAt == q.ledger.finishedAt[item.key := q.ledger.finishes + 1]
  {
    assert q.keys[item.key] == item.id;
  }

  lemma FinishedKeepsBlock(q: Queue, item: PendingItem, outcome: Outcome, k: string)
    requires IdsOk(q) && KeysOk(q) && RecentOk(q) && Recency(q) && IsLive(q, item) && item.key != ""
    requires k in q.ledger.finishedAt || k == item.key
    ensures var r := Finished(q, item, outcome);
      || k in r.keys || k in r.recent || k in r.ledger.forgottenKeys
      || r.ledger.finishes - r.ledger.finishedAt[k] >= RECENT_KEYS
  {
    assert item.key in q.keys && item.key !in q.recent;
    FinishedParts(q, item, outcome);
    if k == item.key {
      NewestIsRemembered(q.recent, k);
    } else if k in q.recent {
      var i :| 0 <= i < |q.recent| && q.recent[i] == k;
      RememberedKeeps(q.recent, item.key, i);
    }
  }

  lemma FinishedKeeps(q: Queue, item: PendingItem, outcome: Outcome)
    requires QueueInv(q) && IsLive(q, item)
    ensures QueueInv(Finished(q, item, outcome))
  {
    FinishedBalances(q, item, outcome);
    FinishedKeepsIds(q, item, outcome);
    FinishedKeepsKeys(q, item, outcome);
    FinishedKeepsRecency(q, item, outcome);
  }

  // ---- running, requeueing, editing ------------------------------------------------------------

  lemma ReplacedBalances(q: Queue, item: PendingItem, r: Queue)
    requires Balanced(q) && IsLive(q, item)
    requires r.items == q.items[item.id := item] && r.stats == q.stats
    requires r.ledger.taken == q.ledger.taken && r.ledger.wiped == q.ledger.wiped
    ensures Balanced(r)
  {
    forall s: Slot ensures BalancedAt(r, s, 0) {
      assert BalancedAt(q, s, 0);
      assert Live(r, s) == Live(q, s);
    }
  }

  lemma SameItemsBalance(q: Queue, r: Queue)
    requires Balanced(q) && r.items == q.items && r.stats == q.stats
    requires r.ledger.taken == q.ledger.taken && r.ledger.wiped == q.ledger.wiped
    ensures Balanced(r)
  {
    forall s: Slot ensures BalancedAt(r, s, 0) {
      assert BalancedAt(q, s, 0);
      SameLive(q, r, s);
    }
  }

  /** The execution under way is already accounted for by the budget it used up. */
  ghost predicate Paid(q: Queue, item: PendingItem) {
    Get(q.ledger.runs, item.id, 0) + Budget(item) <= MAX_REQUEUES + Get(q.ledger.stops, item.id, 0)
  }

  lemma ReplacedKeepsKeys(q: Queue, item: PendingItem, r: Queue)
    requires IdsOk(q) && KeysOk(q) && RecentOk(q) && Recency(q) && IsLive(q, item)
    requires r == q.(items := q.items[item.id := item], running := r.running) && r.running <= q.running
    ensures IdsOk(r) && KeysOk(r) && RecentOk(r) && Recency(r)
  {
  }

  /** Putting a running item back takes an execution that used up some of its budget. */
  lemma RequeuedKeeps(q: Queue, item: PendingItem)
    requires QueueInv(q) && IsLive(q, item) && Paid(q, item)
    ensures QueueInv(Requeued(q, item))
  {
    ReplacedBalances(q, item, Requeued(q, item));
    ReplacedKeepsKeys(q, item, Requeued(q, item));
    assert RunsOk(Requeued(q, item));
  }

  /** Waiting out quiet hours is not an execution: the item was not running and keeps its budget. */
  lemma EditedKeeps(q: Queue, item: PendingItem)
    requires QueueInv(q) && IsLive(q, item)
    requires Budget(item) <= Budget(q.items[item.id])
    ensures QueueInv(Edited(q, item))
  {
    ReplacedBalances(q, item, Edited(q, item));
    ReplacedKeepsKeys(q, item, Edited(q, item));
    assert RunsOk(Edited(q, item));
  }

  lemma LaunchedKeeps(q: Queue, id: string)
    requires QueueInv(q) && id in q.items && id !in q.running
    ensures QueueInv(Launched(q, id))
  {
    SameItemsBalance(q, Launched(q, id));
  }

  lemma BrokenOffKeeps(q: Queue, id: string)
    requires QueueInv(q) && id in q.running
    ensures QueueInv(BrokenOff(q, id))
  {
    SameItemsBalance(q, BrokenOff(q, id));
  }

  lemma DoomedKeeps(q: Queue, ids: set<string>)
    requires QueueInv(q) && ids <= q.items.Keys
    ensures QueueInv(Doomed(q, ids))
  {
    SameItemsBalance(q, Doomed(q, ids));
  }

  // ---- forgetting a job -----------------------------------------------------------------------------

  lemma ForgottenBalancesAt(q: Queue, job: string, s: Slot)
    requires BalancedAt(q, s, 0)
    ensures BalancedAt(Forgotten(q, job), s, 0)
  {
    var r := Forgotten(q, job);
    assert Get(r.ledger.wiped, s, 0)
      == Get(q.ledger.wiped, s, 0) + if s.0 == job then CountOf(q, s) + |Live(q, s) - q.running| else 0;
    if s.0 == job {
      assert Live(r, s) == Live(q, s) * q.running;
      CardSplit(Live(q, s), q.running);
    } else {
      assert Live(r, s) == Live(q, s);
    }
  }

  lemma CardSplit<T>(a: set<T>, b: set<T>)
    ensures |a| == |a * b| + |a - b|
  {
    assert a == (a * b) + (a - b);
  }

  lemma ForgottenBalances(q: Queue, job: string)
    requires Balanced(q)
    ensures Balanced(Forgotten(q, job))
  {
    forall s: Slot ensures BalancedAt(Forgotten(q, job), s, 0) {
      assert BalancedAt(q, s, 0);
      ForgottenBalancesAt(q, job, s);
    }
  }

  lemma ForgottenKeepsIds(q: Queue, job: string)
    requires IdsOk(q) && RunsOk(q)
    ensures IdsOk(Forgotten(q, job)) && RunsOk(Forgotten(q, job))
  {
  }

  lemma ForgottenKeepsKeys(q: Queue, job: string)
    requires IdsOk(q) && KeysOk(q) && RecentOk(q)
    ensures KeysOk(Forgotten(q, job)) && RecentOk(Forgotten(q, job))
  {
    var r := Forgotten(q, job);
    forall id | id in r.items && r.items[id].key != "" ensures r.items[id].key in r.keys {
      assert id in q.items;
    }
  }

  lemma ForgottenKeepsRecency(q: Queue, job: string)
    requires KeysOk(q) && Recency(q)
    ensures Recency(Forgotten(q, job))
  {
  }

  lemma ForgottenKeeps(q: Queue, job: string)
    requires QueueInv(q)
    ensures QueueInv(Forgotten(q, job))
  {
    ForgottenBalances(q, job);
    ForgottenKeepsIds(q, job);
    ForgottenKeepsKeys(q, job);
    ForgottenKeepsRecency(q, job);
  }

  // ---- several items at once ---------------------------------------------------------------------------

  function SetOf(ids: seq<string>): set<string> {
    set id | id in ids
  }

  lemma SetOfPrefix(ids: seq<string>)
    requires ids != []
    ensures SetOf(ids) == SetOf(ids[..|ids| - 1]) + {ids[|ids| - 1]}
  {
    assert ids == ids[..|ids| - 1] + [ids[|ids| - 1]];
  }

  /** What one finish does to the parts that tell items apart. */
  lemma FinishedEffect(q: Queue, item: PendingItem, outcome: Outcome)
    ensures var r := Finished(q, item, outcome);
      && r.items == q.items - {item.id}
      && r.running == q.running - {item.id}
      && r.cancelled == q.cancelled - {item.id}
      && r.ledger.ended == q.ledger.ended[item.id := End(item, outcome)]
      && SameTally(q, r)
  {
  }

  /** Executions, stops, and what was handed in are as they were. */
  ghost predicate SameTally(q: Queue, r: Queue) {
    && r.ledger.runs == q.ledger.runs && r.ledger.stops == q.ledger.stops
    && r.ledger.used == q.ledger.used && r.ledger.taken == q.ledger.taken
  }

  /** Finishing a list of pending items removes exactly those, each with its outcome,
      and leaves every other item, and what is running, as it was. */
  ghost predicate Dropped(q: Queue, ids: set<string>, outcome: Outcome, r: Queue) {
    && ids <= q.items.Keys
    && r.items == q.items - ids
    && r.running == q.running
    && r.cancelled == q.cancelled - ids
    && SameTally(q, r)
    && r.ledger.ended.Keys == q.ledger.ended.Keys + ids
    && (forall id :: id in ids ==> r.ledger.ended[id] == End(q.items[id], outcome))
    && (forall id :: id in q.ledger.ended && id !in ids ==> r.ledger.ended[id] == q.ledger.ended[id])
  }

  lemma DroppedOneMore(q: Queue, ids: set<string>, id: string, outcome: Outcome, r: Queue)
    requires Dropped(q, ids, outcome, r)
    requires id in q.items && id !in ids && id !in q.running && q.items[id].id == id
    ensures Dropped(q, ids + {id}, outcome, Finished(r, r.items[id], outcome))
  {
    FinishedEffect(r, r.items[id], outcome);
  }

  lemma {:induction false} AllFinishedKeeps(q: Queue, ids: seq<string>, outcome: Outcome)
    requires QueueInv(q) && Distinct(ids) && SetOf(ids) <= q.items.Keys - q.running
    ensures QueueInv(AllFinished(q, ids, outcome))
    ensures Dropped(q, SetOf(ids), outcome, AllFinished(q, ids, outcome))
  {
    if ids != [] {
      var front := ids[..|ids| - 1];
      var id := ids[|ids| - 1];
      SetOfPrefix(ids);
      AllFinishedKeeps(q, front, outcome);
      var r := AllFinished(q, front, outcome);
      assert id !in SetOf(front);
      FinishedKeeps(r, r.items[id], outcome);
      DroppedOneMore(q, SetOf(front), id, outcome, r);
    }
  }

  lemma {:induction false} AllLaunchedKeeps(q: Queue, ids: seq<string>)
    requires QueueInv(q) && Distinct(ids) && SetOf(ids) <= q.items.Keys - q.running
    ensures var r := AllLaunched(q, ids);
      && QueueInv(r)
      && r.items == q.items
      && r.running == q.running + SetOf(ids)
      && r.cancelled == q.cancelled
      && r.ledger.ended == q.ledger.ended && r.ledger.used == q.ledger.used
      && r.ledger.taken == q.ledger.taken && r.ledger.stops == q.ledger.stops
      && (forall id :: id !in SetOf(ids) ==> Get(r.ledger.runs, id, 0) == Get(q.ledger.runs, id, 0))
  {
    if ids != [] {
      var front := ids[..|ids| - 1];
      SetOfPrefix(ids);
      AllLaunchedKeeps(q, front);
      assert ids[|ids| - 1] !in SetOf(front);
      LaunchedKeeps(AllLaunched(q, front), ids[|ids| - 1]);
    }
  }

  lemma {:induction false} AllBrokenOffKeeps(q: Queue, ids: seq<string>)
    requires QueueInv(q) && Distinct(ids) && SetOf(ids) <= q.running
    ensures var r := AllBrokenOff(q, ids);
      && QueueInv(r)
      && r.items == q.items
      && r.running == q.running - SetOf(ids)
      && r.cancelled == q.cancelled
      && r.ledger.ended == q.ledger.ended && r.ledger.used == q.ledger.used
      && r.ledger.taken == q.ledger.taken && r.ledger.runs == q.ledger.runs
      && (forall id :: id !in SetOf(ids) ==> Get(r.ledger.stops, id, 0) == Get(q.ledger.stops, id, 0))
  {
    if ids != [] {
      var front := ids[..|ids| - 1];
      SetOfPrefix(ids);
      AllBrokenOffKeeps(q, front);
      assert ids[|ids| - 1] !in SetOf(front);
      BrokenOffKeeps(AllBrokenOff(q, front), ids[|ids| - 1]);
    }
  }

  // ---- coming back after a restart ---------------------------------------------------------------------

  /** `resume` for one held item: its key stops being blocked and becomes live. */
  function Restored(q: Queue, item: PendingItem): Queue {
    Inserted(if item.key == "" then q else q.(recent := Pop(q.recent, item.key)), item)
  }

  lemma PopKeepsBehind(recent: seq<string>, key: string, i: nat)
    requires i < |Pop(recent, key)|
    ensures exists j :: 0 <= j < |recent| && recent[j] == Pop(recent, key)[i]
                        && |Pop(recent, key)| - 1 - i <= |recent| - 1 - j
  {
    if key in recent {
      var x := IndexOf(recent, key);
      var j := if i < x then i else i + 1;
      assert recent[j] == Pop(recent, key)[i];
    } else {
      assert recent[i] == Pop(recent, key)[i];
    }
  }

  lemma RestoredKeepsRecency(q: Queue, item: PendingItem)
    requires RecentOk(q) && Recency(q) && item.key !in q.keys
    ensures RecentOk(Restored(q, item)) && Recency(Restored(q, item))
  {
    var r := Restored(q, item);
    if item.key != "" {
      PopMembers(q.recent, item.key);
      forall i | 0 <= i < |r.recent| && r.recent[i] in r.ledger.finishedAt
        ensures |r.recent| - 1 - i <= r.ledger.finishes - r.ledger.finishedAt[r.recent[i]]
      {
        PopKeepsBehind(q.recent, item.key, i);
      }
    }
  }

  lemma RestoredKeeps(q: Queue, item: PendingItem)
    requires QueueInv(q) && item.id !in q.ledger.used && item.key !in q.keys
    ensures QueueInv(Restored(q, item))
  {
    var p := if item.key == "" then q else q.(recent := Pop(q.recent, item.key));
    SameItemsBalance(q, p);
    InsertedBalances(p, item);
    InsertedKeepsRuns(p, item);
    PopMembers(q.recent, item.key);
    InsertedKeepsKeys(p, item);
    RestoredKeepsRecency(q, item);
  }
}
