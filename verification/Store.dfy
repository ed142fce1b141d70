/** `PendingStore` of `tlgr/gateway/pending.py`: what a save keeps and a load gives back. */
module Store {
  import opened Basics
  import opened Items
  import opened Queues

  /** A persisted item. `Foreign` is one whose action is no longer built in. */
  datatype Record =
    | Runnable(item: PendingItem)
    | Foreign(id: string, job: string, key: string)
  {
    function Id(): string {
      if Runnable? then item.id else id
    }

    function Key(): string {
      if Runnable? then item.key else key
    }

    function Job(): string {
      if Runnable? then item.job else job
    }
  }

  datatype File = File(items: seq<Record>, recent: seq<string>)

  function Save(items: seq<Record>, recent: seq<string>): File {
    File(if |items| <= MAX_PENDING then items else items[..MAX_PENDING], LastN(recent, RECENT_KEYS))
  }

  function LoadedItems(file: File): seq<Record> {
    if |file.items| <= MAX_PENDING then file.items else file.items[..MAX_PENDING]
  }

  function LoadedRecent(file: File): seq<string> {
    LastN(file.recent, RECENT_KEYS)
  }

  /** Live items as they are written: running or not, they come back pending. */
  function Runnables(items: map<string, PendingItem>, order: seq<string>): (r: seq<Record>)
    requires forall id :: id in order ==> id in items
    ensures |r| == |order|
  {
    seq(|order|, i requires 0 <= i < |order| => assert order[i] in order; Runnable(items[order[i]]))
  }

  /** Assigning a key of an ordered dictionary: a known key keeps its place. */
  function WithKey(recent: seq<string>, key: string): seq<string> {
    if key in recent then recent else recent + [key]
  }

  function WithKeys(recent: seq<string>, keys: seq<string>): seq<string> {
    if keys == [] then recent else WithKey(WithKeys(recent, keys[..|keys| - 1]), keys[|keys| - 1])
  }

  /** The non-empty keys of held items, in their order. */
  function KeysOf(held: seq<Record>): seq<string> {
    if held == [] then []
    else KeysOf(held[..|held| - 1])
         + if held[|held| - 1].Key() == "" then [] else [held[|held| - 1].Key()]
  }

  /** `preload`: the finished keys take effect, and held keys count as taken. */
  function Preloaded(file: File): seq<string> {
    WithKeys(WithKeys([], LoadedRecent(file)), KeysOf(LoadedItems(file)))
  }

  lemma {:induction false} WithKeysDistinct(recent: seq<string>, keys: seq<string>)
    requires Distinct(recent)
    ensures Distinct(WithKeys(recent, keys))
    ensures forall k :: k in WithKeys(recent, keys) <==> k in recent || k in keys
  {
    if keys != [] {
      WithKeysDistinct(recent, keys[..|keys| - 1]);
      assert keys == keys[..|keys| - 1] + [keys[|keys| - 1]];
    }
  }

  // ---- resume --------------------------------------------------------------------

  /** `resume` for one held record: dropped when its job or action is gone, skipped when a copy is live. */
  function ResumedOne(q: Queue, record: Record, active: set<string>): Queue {
    if record.Foreign? || record.Job() !in active then q
    else if record.item.id in q.items || record.item.key in q.keys then q
    else Restored(q, record.item)
  }

  function Resumed(q: Queue, held: seq<Record>, active: set<string>): Queue {
    if held == [] then q
    else ResumedOne(Resumed(q, held[..|held| - 1], active), held[|held| - 1], active)
  }

  function IdsOf(held: seq<Record>): set<string> {
    set i | 0 <= i < |held| :: held[i].Id()
  }

  /** Item ids are unique: held records repeat neither each other nor an id used before. */
  ghost predicate HeldOk(q: Queue, held: seq<Record>) {
    && (forall i, j :: 0 <= i < j < |held| ==> held[i].Id() != held[j].Id())
    && IdsOf(held) !! q.ledger.used
  }

  /** The live items are still there, and only `ids` may have been added. */
  ghost predicate Grown(q: Queue, ids: set<string>, r: Queue) {
    && r.running == q.running
    && r.ledger.ended == q.ledger.ended
    && r.ledger.runs == q.ledger.runs && r.ledger.stops == q.ledger.stops
    && (forall id :: id in q.items ==> id in r.items && r.items[id] == q.items[id])
    && r.ledger.used <= q.ledger.used + ids
  }

  lemma ResumedOneKeeps(q: Queue, record: Record, active: set<string>)
    requires QueueInv(q) && record.Id() !in q.ledger.used
    ensures QueueInv(ResumedOne(q, record, active))
    ensures Grown(q, {record.Id()}, ResumedOne(q, record, active))
  {
    if ResumedOne(q, record, active) != q {
      RestoredKeeps(q, record.item);
    }
  }

  lemma IdsOfPrefix(held: seq<Record>)
    requires held != []
    ensures IdsOf(held) == IdsOf(held[..|held| - 1]) + {held[|held| - 1].Id()}
  {
    var front := held[..|held| - 1];
    forall id | id in IdsOf(held) ensures id in IdsOf(front) + {held[|held| - 1].Id()} {
      var i :| 0 <= i < |held| && held[i].Id() == id;
      if i < |front| { assert front[i].Id() == id; }
    }
    forall id | id in IdsOf(front) ensures id in IdsOf(held) {
      var i :| 0 <= i < |front| && front[i].Id() == id;
      assert held[i].Id() == id;
    }
  }

  lemma {:induction false} ResumedKeeps(q: Queue, held: seq<Record>, active: set<string>)
    requires QueueInv(q) && HeldOk(q, held)
    ensures QueueInv(Resumed(q, held, active))
    ensures Grown(q, IdsOf(held), Resumed(q, held, active))
  {
    if held != [] {
      var front := held[..|held| - 1];
      var last := held[|held| - 1];
      IdsOfPrefix(held);
      ResumedKeeps(q, front, active);
      assert last.Id() !in IdsOf(front);
      ResumedOneKeeps(Resumed(q, front, active), last, active);
    }
  }
}
