/** The queue of `ActionScheduler` as the object it is: the item map with each
    item's own state, the lazy heaps, the key index, the sets and the counters,
    updated in place. Every method says which step of the queue it takes. */
module ItemQueues {
  import opened Basics
  import opened Items
  import opened Queues
  import opened Store
  import opened Machine
  import opened Heaps
  import Safety

  /** `PendingItem.state`: kept per item, beside the `_running` set. */
  datatype ItemState = IsPending | IsRunning

  // ---- facts about the steps that the methods need ------------------------------------

  /** Apart from the running set itself, finishing and requeueing do not depend on who is running. */
  lemma FinishedApart(q: Queue, running: set<string>, item: PendingItem, outcome: Outcome)
    ensures Finished(q.(running := running), item, outcome).(running := running)
            == Finished(q, item, outcome).(running := running)
  {
  }

  lemma RunningIsApart(q: Queue, running: set<string>, id: string, verdict: Verdict, limit: nat, due: real)
    requires id in q.items
    ensures SettledOne(q.(running := running), id, verdict, limit, due).(running := running)
            == SettledOne(q, id, verdict, limit, due).(running := running)
  {
    var hit := Hit(q.items[id], verdict);
    match FateOf(hit, verdict, id in q.cancelled, limit, due)
    case Leaves(outcome) => FinishedApart(q, running, hit, outcome);
    case Stays(at) =>
  }

  lemma FinishedWhenPending(q: Queue, item: PendingItem, outcome: Outcome)
    requires item.id !in q.running
    ensures Finished(q, item, outcome).(running := q.running) == Finished(q, item, outcome)
  {
  }

  lemma AllFinishedOneMore(q: Queue, ids: seq<string>, id: string, outcome: Outcome)
    requires id in AllFinished(q, ids, outcome).items
    ensures AllFinished(q, ids + [id], outcome)
            == Finished(AllFinished(q, ids, outcome), AllFinished(q, ids, outcome).items[id], outcome)
  {
    assert (ids + [id])[..|ids|] == ids;
  }

  /** Any finite set can be walked in some order. */
  lemma Walk(s: set<string>) returns (ids: seq<string>)
    ensures Enumerates(ids, s)
  {
    ids := [];
    var left := s;
    while left != {}
      invariant Distinct(ids) && left <= s
      invariant forall id :: id in ids <==> id in s && id !in left
    {
      var id :| id in left;
      DistinctAppend(ids, id);
      left := left - {id};
      ids := ids + [id];
    }
  }

  lemma SettledOneStops(q: Queue, id: string, verdict: Verdict, limit: nat, due: real)
    requires id in q.items && q.items[id].id == id
    ensures SettledOne(q, id, verdict, limit, due).running == q.running - {id}
    ensures SettledOne(q, id, verdict, limit, due).ledger.used == q.ledger.used
    ensures forall x :: x != id && x in q.items ==>
      x in SettledOne(q, id, verdict, limit, due).items && SettledOne(q, id, verdict, limit, due).items[x] == q.items[x]
  {
    var hit := Hit(q.items[id], verdict);
    match FateOf(hit, verdict, id in q.cancelled, limit, due)
    case Leaves(outcome) => FinishedEffect(q, hit, outcome);
    case Stays(at) =>
  }

  lemma SettledPrefix(q: Queue, ids: seq<string>, i: nat, verdict: Verdict, limit: nat, dues: seq<real>)
    requires i < |ids| == |dues|
    requires ids[i] in Settled(q, ids[..i], verdict, limit, dues[..i]).items
    ensures Settled(q, ids[..i + 1], verdict, limit, dues[..i + 1])
            == SettledOne(Settled(q, ids[..i], verdict, limit, dues[..i]), ids[i], verdict, limit, dues[i])
    ensures SetOf(ids[..i + 1]) == SetOf(ids[..i]) + {ids[i]}
  {
    assert ids[..i + 1][..i] == ids[..i] && dues[..i + 1][..i] == dues[..i];
    SetOfPrefix(ids[..i + 1]);
  }

  lemma ResumedPrefix(q: Queue, held: seq<Record>, i: nat, active: set<string>)
    requires i < |held| && HeldOk(q, held)
    ensures Resumed(q, held[..i + 1], active) == ResumedOne(Resumed(q, held[..i], active), held[i], active)
    ensures IdsOf(held[..i + 1]) == IdsOf(held[..i]) + {held[i].Id()}
    ensures held[i].Id() !in q.ledger.used + IdsOf(held[..i])
  {
    assert held[..i + 1][..i] == held[..i];
    IdsOfPrefix(held[..i + 1]);
    assert held[i].Id() in IdsOf(held);
  }

  lemma ResumedOneGrows(q: Queue, record: Record, active: set<string>)
    ensures var r := ResumedOne(q, record, active);
      && r.running == q.running
      && q.items.Keys <= r.items.Keys <= q.items.Keys + {record.Id()}
      && r.ledger.used == q.ledger.used + (r.items.Keys - q.items.Keys)
  {
  }

  // ---- batches ---------------------------------------------------------------------------

  ghost predicate ByDue(items: map<string, PendingItem>, ids: seq<string>) {
    && (forall id :: id in ids ==> id in items)
    && forall i, j :: 0 <= i < j < |ids| ==> items[ids[i]].dueAt <= items[ids[j]].dueAt
  }

  /** Where a sort by due time puts one more id. */
  function Placed(items: map<string, PendingItem>, ids: seq<string>, id: string): (r: seq<string>)
    requires id in items && forall x :: x in ids ==> x in items
    ensures forall x :: x in r <==> x in ids || x == id
    ensures |r| == |ids| + 1
  {
    if ids == [] || items[id].dueAt < items[ids[0]].dueAt then [id] + ids
    else
      assert ids == [ids[0]] + ids[1..];
      [ids[0]] + Placed(items, ids[1..], id)
  }

  lemma {:induction false} PlacedKeepsOrder(items: map<string, PendingItem>, ids: seq<string>, id: string)
    requires id in items && ByDue(items, ids) && Distinct(ids) && id !in ids
    ensures ByDue(items, Placed(items, ids, id)) && Distinct(Placed(items, ids, id))
  {
    if !(ids == [] || items[id].dueAt < items[ids[0]].dueAt) {
      PlacedKeepsOrder(items, ids[1..], id);
      var rest := Placed(items, ids[1..], id);
      forall j | 0 <= j < |rest| ensures items[ids[0]].dueAt <= items[rest[j]].dueAt && ids[0] != rest[j] {
        assert rest[j] in rest;
      }
    }
  }

  /** The first hundred, with the head in front if it is not among them. */
  function FirstHundred(head: string, all: seq<string>): seq<string>
    requires head in all
  {
    var cut := if |all| <= MAX_BATCH then all else all[..MAX_BATCH];
    if head in cut then cut else [head] + cut[..MAX_BATCH - 1]
  }

  lemma HundredMembers(head: string, all: seq<string>)
    requires Distinct(all) && head in all
    ensures var batch := FirstHundred(head, all);
      head in batch && Distinct(batch) && |batch| <= MAX_BATCH && forall id :: id in batch ==> id in all
  {
  }

  /** What is left out comes behind all the others. */
  lemma HundredAreFirst(head: string, all: seq<string>, id: string) returns (i: nat)
    requires head in all && id in all && id !in FirstHundred(head, all)
    ensures |FirstHundred(head, all)| == MAX_BATCH && MAX_BATCH - 1 <= i < |all| && all[i] == id
  {
    i :| 0 <= i < |all| && all[i] == id;
    var cut := if |all| <= MAX_BATCH then all else all[..MAX_BATCH];
    assert i < |cut| ==> cut[i] == id;
  }

  lemma HundredAreEarliest(items: map<string, PendingItem>, head: string, all: seq<string>, id: string, other: string)
    requires ByDue(items, all) && head in all && id in all && id !in FirstHundred(head, all)
    requires other in FirstHundred(head, all) && other != head
    ensures id in items && other in items && items[other].dueAt <= items[id].dueAt
  {
    var i := HundredAreFirst(head, all, id);
    var j :| 0 <= j < MAX_BATCH && j < |all| && all[j] == other;
    assert j != i;
  }

  /** The earliest hundred of all that join are a batch. */
  lemma CutIsBatch(q: Queue, head: string, all: seq<string>, now: real)
    requires head in q.items && BatchKeyOf(q.items[head]) != None
    requires ByDue(q.items, all) && Distinct(all) && head in all
    requires forall id :: id in all <==> Joins(q, q.items[head], now, id)
    ensures IsBatch(q, head, FirstHundred(head, all), now)
  {
    var batch := FirstHundred(head, all);
    HundredMembers(head, all);
    forall id | Joins(q, q.items[head], now, id) && id !in batch
      ensures |batch| == MAX_BATCH
      ensures forall other :: other in batch && other != head ==> q.items[other].dueAt <= q.items[id].dueAt
    {
      var i := HundredAreFirst(head, all, id);
      forall other | other in batch && other != head ensures q.items[other].dueAt <= q.items[id].dueAt {
        HundredAreEarliest(q.items, head, all, id, other);
      }
    }
  }

  /** The key index names the item under its key. */
  ghost predicate OwnsKey(q: Queue, id: string)
    requires id in q.items
  {
    q.items[id].key != "" ==> q.items[id].key in q.keys && q.keys[q.items[id].key] == id
  }

  class ItemQueue {
    var items: map<string, PendingItem>
    var states: map<string, ItemState>
    var heaps: map<Kind, seq<Entry>>
    var turns: nat
    var running: set<string>
    var cancelled: set<string>
    var keys: map<string, string>
    var recent: seq<string>
    var stats: map<Slot, Stats>
    ghost var ledger: Ledger

    ghost function Q(): Queue
      reads this
    {
      Queue(items, running, cancelled, keys, recent, stats, ledger)
    }

    ghost predicate HeapsOk()
      reads this
    {
      && Safety.Full(heaps)
      && forall k :: k in heaps ==> HeapOk(heaps[k], k, items, ledger.used)
    }

    /** The state of an item and the set of running items say the same. */
    ghost predicate StatesOk()
      reads this
    {
      && states.Keys == items.Keys
      && forall id :: id in items ==> (states[id].IsRunning? <==> id in running)
    }

    /** The redundant parts agree. */
    ghost predicate Valid()
      reads this
    {
      HeapsOk() && StatesOk()
    }

    constructor ()
      ensures Valid() && Q() == EMPTY
    {
      items, states, running, cancelled, keys, recent, stats := map[], map[], {}, {}, map[], [], map[];
      heaps := map k | k in KINDS :: [];
      turns := 0;
      ledger := NO_LEDGER;
      new;
      forall k: Kind ensures k in heaps {
        assert k.React? || k.Read? || k.View? || k.Forward? || k.Reply?;
      }
    }

    // ---- counters and the queue's small steps ---------------------------------------------

    /** `stats_for` */
    method OpenStats(slot: Slot, action: Kind)
      modifies `stats, `ledger
      ensures Q() == WithStats(old(Q()), slot, action)
    {
      ghost var q := WithStats(Q(), slot, action);
      if slot !in stats || stats[slot].action != action {
        stats := stats[slot := Stats(action, 0, 0, 0, 0, 0)];
      }
      ledger := q.ledger;
    }

    /** `count` */
    method Count(slot: Slot, action: Kind, outcome: Outcome)
      modifies `stats, `ledger
      ensures Q() == Counted(old(Q()), slot, action, outcome)
    {
      OpenStats(slot, action);
      stats := stats[slot := stats[slot].Plus(outcome)];
    }

    /** `count`, for what is handed in but never becomes an item. */
    method CountRefused(slot: Slot, action: Kind, outcome: Outcome)
      modifies `stats, `ledger
      ensures Q() == Tallied(old(Q()), slot, action, outcome)
      ensures old(Valid()) ==> Valid()
    {
      Count(slot, action, outcome);
      ledger := ledger.(taken := Bump(ledger.taken, slot, 1));
    }

    /** `_push` */
    method Push(item: PendingItem)
      requires item.action in heaps
      modifies `heaps, `turns
      ensures heaps == old(heaps)[
        item.action := Pushed(old(heaps)[item.action], Entry(item.dueAt, old(turns), item.id))]
    {
      heaps := heaps[item.action := Pushed(heaps[item.action], Entry(item.dueAt, turns, item.id))];
      turns := turns + 1;
    }

    /** The item as it now is, pending, with an entry for its present due time. */
    method Put(item: PendingItem)
      requires HeapsOk()
      requires if item.id in items then items[item.id].action == item.action else item.id !in ledger.used
      modifies `items, `states, `ledger, `heaps, `turns
      ensures items == old(items)[item.id := item]
      ensures states == old(states)[item.id := IsPending]
      ensures ledger == old(ledger).(used := old(ledger).used + {item.id})
      ensures HeapsOk()
    {
      ghost var used := ledger.used + {item.id};
      forall k | k in heaps
        ensures k == item.action ==>
          HeapOk(Pushed(heaps[k], Entry(item.dueAt, turns, item.id)), k, items[item.id := item], used)
        ensures k != item.action ==> HeapOk(heaps[k], k, items[item.id := item], used)
      {
        PutKeepsHeap(heaps[k], k, items, ledger.used, item, turns);
      }
      items := items[item.id := item];
      states := states[item.id := IsPending];
      ledger := ledger.(used := ledger.used + {item.id});
      Push(item);
    }

    /** `_insert` */
    method Insert(item: PendingItem)
      requires HeapsOk() && item.id !in items && item.id !in ledger.used
      modifies `items, `states, `keys, `stats, `ledger, `heaps, `turns
      ensures Q() == Inserted(old(Q()), item)
      ensures HeapsOk() && (item.id !in running && old(StatesOk()) ==> StatesOk())
    {
      ghost var q := Inserted(Q(), item);
      if item.key != "" {
        keys := keys[item.key := item.id];
      }
      OpenStats(SlotOf(item), item.action);
      Put(item);
      ledger := q.ledger;
    }

    /** `_remove` */
    method Remove(item: PendingItem)
      requires HeapsOk()
      modifies `items, `states, `cancelled, `keys
      ensures Q() == Removed(old(Q()), item).(running := running)
      ensures states == old(states) - {item.id}
      ensures HeapsOk()
    {
      forall k | k in heaps ensures HeapOk(heaps[k], k, items - {item.id}, ledger.used) {
        LeavingKeepsHeap(heaps[k], k, items, ledger.used, items - {item.id});
      }
      cancelled := cancelled - {item.id};
      items := items - {item.id};
      states := states - {item.id};
      if item.key != "" && item.key in keys && keys[item.key] == item.id {
        keys := keys - {item.key};
      }
    }

    /** The key of a finished item is remembered, and the oldest beyond the cap are evicted. */
    method Remember(key: string)
      modifies `recent
      ensures recent == Remembered(old(recent), key)
    {
      if key != "" {
        if key !in recent {
          recent := recent + [key];
        }
        ghost var grown, gone := recent, 0;
        while |recent| > RECENT_KEYS
          invariant 0 <= gone <= |grown| && recent == grown[gone..]
          invariant gone > 0 ==> |recent| >= RECENT_KEYS
        {
          recent := recent[1..];
          gone := gone + 1;
        }
      }
    }

    /** `_finish` */
    method Finish(item: PendingItem, outcome: Outcome)
      requires HeapsOk()
      modifies `items, `states, `cancelled, `keys, `recent, `stats, `ledger
      ensures Q() == Finished(old(Q()), item, outcome).(running := running)
      ensures states == old(states) - {item.id}
      ensures HeapsOk() && (old(StatesOk()) ==> StatesOk())
    {
      ghost var q := Finished(Q(), item, outcome);
      Remove(item);
      Remember(item.key);
      Count(SlotOf(item), item.action, outcome);
      ledger := q.ledger;
    }

    /** `_finish` for each of several items that are not running. */
    method FinishEach(chosen: set<string>, outcome: Outcome) returns (ghost drops: seq<string>)
      requires Valid() && chosen <= items.Keys && chosen !! running
      requires forall id :: id in items ==> items[id].id == id
      modifies `items, `states, `cancelled, `keys, `recent, `stats, `ledger
      ensures Enumerates(drops, chosen)
      ensures Q() == AllFinished(old(Q()), drops, outcome)
      ensures Valid()
    {
      ghost var q := Q();
      var left := chosen;
      drops := [];
      while left != {}
        invariant left <= chosen && left <= items.Keys && Distinct(drops)
        invariant forall id :: id in drops <==> id in chosen && id !in left
        invariant Q() == AllFinished(q, drops, outcome)
        invariant forall id :: id in items ==> items[id].id == id
        invariant Valid()
      {
        var id :| id in left;
        DistinctAppend(drops, id);
        AllFinishedOneMore(q, drops, id, outcome);
        FinishedWhenPending(Q(), items[id], outcome);
        drops := drops + [id];
        left := left - {id};
        Finish(items[id], outcome);
      }
    }

    /** An item changed in place, in anything but its due time: its entries still stand. */
    method Edit(item: PendingItem)
      requires HeapsOk() && item.id in items
      requires items[item.id].action == item.action && items[item.id].dueAt == item.dueAt
      modifies `items
      ensures Q() == Edited(old(Q()), item)
      ensures HeapsOk() && (old(StatesOk()) ==> StatesOk())
    {
      forall k | k in heaps ensures HeapOk(heaps[k], k, items[item.id := item], ledger.used) {
        LeavingKeepsHeap(heaps[k], k, items, ledger.used, items[item.id := item]);
      }
      items := items[item.id := item];
    }

    // ---- the worker's view of the queue -------------------------------------------------------

    /** `_peek`: the lazy heap answers as the plain queue would. */
    method Peek(kind: Kind) returns (found: Option<string>)
      requires Valid()
      requires forall id :: id in items && items[id].action == kind ==> id !in running
      modifies `heaps
      ensures Valid() && Q() == old(Q())
      ensures found.None? ==> forall id :: Pending(Q(), id) ==> items[id].action != kind
      ensures found.Some? ==> IsPeek(Q(), kind, found.value)
    {
      while heaps[kind] != []
        invariant Valid()
        decreases |heaps[kind]|
      {
        var first := heaps[kind][0];
        if || first.id !in items || states[first.id].IsRunning?
           || items[first.id].dueAt != first.due || first.id in running
        {
          PopKeepsHeap(heaps[kind], kind, items, ledger.used);
          heaps := heaps[kind := heaps[kind][1..]];
        } else {
          HeadIsLeast(heaps[kind], kind, items, ledger.used);
          return Some(first.id);
        }
      }
      found := None;
    }

    /** `_batch_for` */
    method BatchFor(head: string, now: real) returns (batch: seq<string>)
      requires head in items && Joins(Q(), items[head], now, head)
      ensures IsBatch(Q(), head, batch, now)
    {
      if BatchKeyOf(items[head]) == None {
        return [head];
      }
      var all := [];
      var left := items.Keys;
      while left != {}
        invariant left <= items.Keys
        invariant forall id :: id in all <==> id !in left && Joins(Q(), items[head], now, id)
        invariant ByDue(items, all) && Distinct(all)
      {
        var id :| id in left;
        left := left - {id};
        if id !in running && items[id].action == items[head].action
           && BatchKeyOf(items[id]) == BatchKeyOf(items[head]) && MayStart(items[id], now)
        {
          PlacedKeepsOrder(items, all, id);
          all := Placed(items, all, id);
        }
      }
      var cut := if |all| <= MAX_BATCH then all else all[..MAX_BATCH];
      batch := if head in cut then cut else [head] + cut[..MAX_BATCH - 1];
      CutIsBatch(Q(), head, all, now);
    }

    method LaunchOne(id: string)
      requires Valid() && id in items
      modifies `states, `running, `ledger
      ensures Valid() && Q() == Launched(old(Q()), id) && ledger.used == old(ledger.used)
    {
      states := states[id := IsRunning];
      running := running + {id};
      ledger := ledger.(runs := Bump(ledger.runs, id, 1));
    }

    /** The head of `_execute`: every item of the batch starts running. */
    method Launch(batch: seq<string>)
      requires Valid() && forall id :: id in batch ==> id in items
      modifies `states, `running, `ledger
      ensures Valid() && Q() == AllLaunched(old(Q()), batch)
      ensures ledger.used == old(ledger.used)
    {
      var i := 0;
      while i < |batch|
        invariant i <= |batch| && ledger.used == old(ledger.used)
        invariant Valid() && Q() == AllLaunched(old(Q()), batch[..i])
      {
        assert batch[..i + 1][..i] == batch[..i] && batch[i] in batch;
        LaunchOne(batch[i]);
        i := i + 1;
      }
      assert batch[..i] == batch;
    }

    /** A stop: every item of the batch is pending again. */
    method BreakOff(batch: seq<string>)
      requires Valid() && forall id :: id in batch ==> id in items
      modifies `states, `running, `ledger
      ensures Valid() && Q() == AllBrokenOff(old(Q()), batch)
    {
      var i := 0;
      while i < |batch|
        invariant i <= |batch|
        invariant Valid() && Q() == AllBrokenOff(old(Q()), batch[..i])
      {
        assert batch[..i + 1][..i] == batch[..i] && batch[i] in batch;
        states := states[batch[i] := IsPending];
        running := running - {batch[i]};
        ledger := ledger.(stops := Bump(ledger.stops, batch[i], 1));
        i := i + 1;
      }
      assert batch[..i] == batch;
    }

    /** Keys that count as taken from now on. */
    method Block(blocked: seq<string>)
      modifies `recent
      ensures Q() == old(Q()).(recent := WithKeys(old(recent), blocked))
    {
      var i := 0;
      while i < |blocked|
        invariant i <= |blocked|
        invariant recent == WithKeys(old(recent), blocked[..i])
      {
        if blocked[i] !in recent {
          recent := recent + [blocked[i]];
        }
        i := i + 1;
        assert blocked[..i][..i - 1] == blocked[..i - 1];
      }
      assert blocked[..i] == blocked;
    }

    /** `preload`: the finished keys take effect, and the keys of held items count as taken. */
    method BlockLoaded(file: File)
      requires Valid() && recent == []
      modifies `recent
      ensures Valid() && Q() == old(Q()).(recent := Preloaded(file))
    {
      Block(LoadedRecent(file));
      Block(KeysOf(LoadedItems(file)));
    }

    /** The items of a batch, in its order. */
    method Gather(batch: seq<string>) returns (found: seq<PendingItem>)
      requires forall id :: id in batch ==> id in items
      ensures found == ItemsAt(Q(), batch)
    {
      found := [];
      var i := 0;
      while i < |batch|
        invariant i <= |batch| == |ItemsAt(Q(), batch)|
        invariant found == ItemsAt(Q(), batch)[..i]
      {
        assert batch[i] in batch;
        found := found + [items[batch[i]]];
        i := i + 1;
      }
    }

    // ---- settling a batch ---------------------------------------------------------------------

    /** `_reschedule` */
    method Reschedule(item: PendingItem, due: real)
      requires HeapsOk() && item.id in ledger.used
      requires item.id in items && items[item.id].action == item.action
      modifies `items, `states, `ledger, `heaps, `turns
      ensures Q() == Requeued(old(Q()), item.(dueAt := due)).(running := running)
      ensures states == old(states)[item.id := IsPending]
      ensures HeapsOk()
    {
      Put(item.(dueAt := due));
      assert ledger.used == old(ledger.used);
    }

    /** An item of the batch that still awaits its turn. */
    ghost predicate Awaits(id: string)
      reads this
    {
      id in items && items[id].id == id && id in ledger.used
    }

    /** While a batch is settled the queue is `m`, except that the running set is as far as the code has it. */
    ghost predicate Tied(m: Queue)
      reads this
    {
      && Q() == m.(running := running)
      && HeapsOk()
      && states.Keys == items.Keys
      && forall id :: id in items ==> (states[id].IsRunning? <==> id in m.running)
    }

    /** One item settled: gone, or pending again. */
    twostate predicate SettledTo(id: string, m: Queue, r: Queue)
      reads this
    {
      && Q() == r.(running := running)
      && HeapsOk()
      && states == if id in items then old(states)[id := IsPending] else old(states) - {id}
    }

    /** One item after an execution that raised nothing. */
    method SucceedOne(id: string, verdict: Verdict, ghost m: Queue, ghost limit: nat, ghost due: real)
      requires HeapsOk() && Awaits(id) && !verdict.Failing()
      modifies `items, `states, `cancelled, `keys, `recent, `stats, `ledger, `heaps, `turns
      ensures SettledTo(id, m, SettledOne(old(Q()), id, verdict, limit, due))
    {
      var item := items[id];
      if id in cancelled {
        Finish(item, Superseded);
      } else if verdict.Later? {
        Reschedule(item, verdict.at);
      } else {
        Finish(item, if verdict.NothingToDo? then Skipped else Done);
      }
    }

    /** One item in `_failed`, after a flood. */
    method FloodOne(id: string, verdict: Verdict, due: real, ghost m: Queue, ghost limit: nat)
      requires HeapsOk() && Awaits(id) && verdict.Flood?
      modifies `items, `states, `cancelled, `keys, `recent, `stats, `ledger, `heaps, `turns
      ensures SettledTo(id, m, SettledOne(old(Q()), id, verdict, limit, due))
    {
      var item := items[id].(floods := items[id].floods + 1, lastError := "RATE_LIMITED");
      if id in cancelled {
        Finish(item, Superseded);
      } else if item.floods > MAX_FLOOD_RETRIES {
        Finish(item, Errors);
      } else {
        Reschedule(item, due);
      }
    }

    /** One item in `_failed`, after an error that is to be tried again. */
    method RetryOne(id: string, verdict: Verdict, limit: nat, due: real, ghost m: Queue)
      requires HeapsOk() && Awaits(id) && verdict.Transient?
      modifies `items, `states, `cancelled, `keys, `recent, `stats, `ledger, `heaps, `turns
      ensures SettledTo(id, m, SettledOne(old(Q()), id, verdict, limit, due))
    {
      var item := items[id].(attempts := items[id].attempts + 1, lastError := "RETRYABLE");
      if id in cancelled {
        Finish(item, Superseded);
      } else if item.attempts <= limit {
        Reschedule(item, due);
      } else {
        Finish(item, Errors);
      }
    }

    /** One item in `_failed`, after any other error. */
    method ErrorOne(id: string, verdict: Verdict, limit: nat, due: real, ghost m: Queue)
      requires HeapsOk() && Awaits(id) && (verdict.Transient? || verdict.Fatal?)
      modifies `items, `states, `cancelled, `keys, `recent, `stats, `ledger, `heaps, `turns
      ensures SettledTo(id, m, SettledOne(old(Q()), id, verdict, limit, due))
    {
      if verdict.Transient? {
        RetryOne(id, verdict, limit, due, m);
      } else {
        var item := items[id].(attempts := items[id].attempts + 1, lastError := "FATAL");
        Finish(item, if id in cancelled then Superseded else Errors);
      }
    }

    /** One item of the batch, whatever the verdict. */
    method SettleOne(id: string, verdict: Verdict, limit: nat, due: real, ghost m: Queue) returns (ghost r: Queue)
      requires Tied(m) && Awaits(id)
      modifies `items, `states, `cancelled, `keys, `recent, `stats, `ledger, `heaps, `turns
      ensures id in m.items && r == SettledOne(m, id, verdict, limit, due)
      ensures Tied(r) && r.running == m.running - {id}
      ensures forall x :: x != id && old(Awaits(x)) ==> Awaits(x)
    {
      SettledOneStops(Q(), id, verdict, limit, due);
      SettledOneStops(m, id, verdict, limit, due);
      RunningIsApart(m, running, id, verdict, limit, due);
      r := SettledOne(m, id, verdict, limit, due);
      if !verdict.Failing() {
        SucceedOne(id, verdict, m, limit, due);
      } else if verdict.Flood? {
        FloodOne(id, verdict, due, m, limit);
      } else {
        ErrorOne(id, verdict, limit, due, m);
      }
      assert Tied(r);
    }

    method SettleEach(batch: seq<string>, verdict: Verdict, limit: nat, dues: seq<real>, ghost q: Queue)
      requires Tied(q) && Distinct(batch) && |dues| == |batch|
      requires forall id :: id in batch ==> Awaits(id)
      modifies `items, `states, `cancelled, `keys, `recent, `stats, `ledger, `heaps, `turns
      ensures Tied(Settled(q, batch, verdict, limit, dues))
      ensures Settled(q, batch, verdict, limit, dues).running == q.running - SetOf(batch)
    {
      var i := 0;
      ghost var m := q;
      while i < |batch|
        invariant i <= |batch|
        invariant Tied(m) && m == Settled(q, batch[..i], verdict, limit, dues[..i])
        invariant m.running == q.running - SetOf(batch[..i])
        invariant forall j :: i <= j < |batch| ==> Awaits(batch[j])
      {
        assert batch[i] in m.items;
        assert Settled(q, batch[..i + 1], verdict, limit, dues[..i + 1])
            == SettledOne(m, batch[i], verdict, limit, dues[i])
            && SetOf(batch[..i + 1]) == SetOf(batch[..i]) + {batch[i]} by {
          SettledPrefix(q, batch, i, verdict, limit, dues);
        }
        assert forall j :: i < j < |batch| ==> batch[j] != batch[i];
        m := SettleOne(batch[i], verdict, limit, dues[i], m);
        i := i + 1;
      }
      assert batch[..i] == batch && dues[..i] == dues;
    }

    /** The end of `_execute`: `finally` discards the batch from the running set before the loop over
        its items when the execution succeeded, and after the loop of `_failed` when it did not. */
    method Settle(batch: seq<string>, verdict: Verdict, limit: nat, dues: seq<real>)
      requires Valid() && Distinct(batch) && |dues| == |batch|
      requires forall id :: id in batch ==> Awaits(id)
      modifies this
      ensures Q() == Settled(old(Q()), batch, verdict, limit, dues)
      ensures Valid()
    {
      ghost var q := Q();
      if !verdict.Failing() {
        running := running - SetOf(batch);
      }
      SettleEach(batch, verdict, limit, dues, q);
      if verdict.Failing() {
        running := running - SetOf(batch);
      }
    }

    // ---- commands ---------------------------------------------------------------------------------

    /** `pending`: the live items, earliest first. */
    method Ordered() returns (order: seq<string>)
      ensures Enumerates(order, items.Keys) && ByDue(items, order)
    {
      order := [];
      var left := items.Keys;
      while left != {}
        invariant left <= items.Keys
        invariant forall id :: id in order <==> id in items && id !in left
        invariant ByDue(items, order) && Distinct(order)
      {
        var id :| id in left;
        left := left - {id};
        PlacedKeepsOrder(items, order, id);
        order := Placed(items, order, id);
      }
    }

    /** `cancel`. Its loop dooms running items and finishes others; the two branches meet no item twice,
        so the running ones can be visited first. */
    method Cancel(sel: Selector) returns (ghost drops: seq<string>)
      requires Valid() && forall id :: id in items ==> items[id].id == id
      modifies this
      ensures Enumerates(drops, ToCancel(old(Q()), sel))
      ensures Q() == AllFinished(Doomed(old(Q()), ToDoom(old(Q()), sel)), drops, Superseded)
      ensures Valid()
    {
      ghost var q := Q();
      var doomed := set id | id in items && id in running
        && (sel.everything || (sel.job != None && items[id].job == sel.job.value && sel.ids == {}));
      cancelled := cancelled + doomed;
      var chosen := set id | id in items && id !in running && Selected(sel, items[id]);
      assert doomed == ToDoom(q, sel) && chosen == ToCancel(q, sel);
      drops := FinishEach(chosen, Superseded);
    }

    /** The keys of some items. */
    ghost function KeysOfItems(q: Queue, ids: set<string>): set<string>
      requires ids <= q.items.Keys
    {
      set id | id in ids && q.items[id].key != "" :: q.items[id].key
    }

    /** What `forget_job` has done when it has visited `seen` of the job's items. */
    ghost predicate Forgetting(q: Queue, seen: set<string>)
      requires seen <= q.items.Keys
      reads this
    {
      var gone := seen - q.running;
      && items == q.items - gone
      && running == q.running
      && cancelled == (q.cancelled - gone) + (seen * q.running)
      && keys == q.keys - KeysOfItems(q, gone)
      && recent == q.recent && stats == q.stats && ledger == q.ledger
    }

    lemma KeysGrow(q: Queue, gone: set<string>, id: string)
      requires gone <= q.items.Keys && id in q.items && id !in gone
      requires OwnsKey(q, id) && forall x :: x in gone ==> OwnsKey(q, x)
      ensures KeysOfItems(q, gone + {id})
              == KeysOfItems(q, gone) + if q.items[id].key == "" then {} else {q.items[id].key}
      ensures q.items[id].key !in KeysOfItems(q, gone)
    {
    }

    method ForgetRunning(id: string, ghost q: Queue, ghost seen: set<string>)
      requires Valid() && seen <= q.items.Keys && Forgetting(q, seen)
      requires id in q.items && id !in seen && id in running
      modifies `cancelled
      ensures Valid() && Forgetting(q, seen + {id})
    {
      assert seen + {id} - q.running == seen - q.running;
      cancelled := cancelled + {id};
    }

    method ForgetPending(id: string, ghost q: Queue, ghost seen: set<string>)
      requires Valid() && seen <= q.items.Keys && Forgetting(q, seen)
      requires id in q.items && id !in seen && id !in running && q.items[id].id == id
      requires OwnsKey(q, id) && forall x :: x in seen ==> OwnsKey(q, x)
      modifies `items, `states, `cancelled, `keys
      ensures Valid() && Forgetting(q, seen + {id})
    {
      ghost var gone := seen - q.running;
      assert seen + {id} - q.running == gone + {id};
      KeysGrow(q, gone, id);
      Remove(items[id]);
    }

    /** The counters of a job go. */
    method ForgetStats(job: string, ghost q: Queue)
      requires Valid() && Forgetting(q, OfJob(q, job))
      modifies `stats, `ledger
      ensures Valid() && Q() == Forgotten(q, job)
    {
      ledger := Forgotten(q, job).ledger;
      stats := map slot | slot in stats && slot.0 != job :: stats[slot];
      assert OfJob(q, job) - q.running <= q.items.Keys;
    }

    /** `forget_job` */
    method Forget(job: string) returns (count: nat)
      requires Valid() && forall id :: id in items ==> items[id].id == id && OwnsKey(Q(), id)
      modifies this
      ensures Valid() && Q() == Forgotten(old(Q()), job)
      ensures count == |OfJob(old(Q()), job)|
    {
      ghost var q := Q();
      var dropped := set id | id in items && items[id].job == job;
      count := |dropped|;
      var left := dropped;
      while left != {}
        invariant left <= dropped == OfJob(q, job)
        invariant Valid() && Forgetting(q, dropped - left)
      {
        var id :| id in left;
        assert dropped - (left - {id}) == dropped - left + {id};
        if id in running {
          ForgetRunning(id, q, dropped - left);
        } else {
          ForgetPending(id, q, dropped - left);
        }
        left := left - {id};
      }
      assert dropped - left == dropped;
      ForgetStats(job, q);
    }

    /** One held record in `resume`. */
    method RestoreOne(record: Record, active: set<string>)
      requires Valid() && record.Id() !in ledger.used && record.Id() !in items && record.Id() !in running
      modifies this
      ensures Valid() && Q() == ResumedOne(old(Q()), record, active)
    {
      if record.Foreign? || record.Job() !in active {
        return;
      }
      var item := record.item;
      if item.id in items || item.key in keys {
        return;
      }
      if item.key != "" {
        recent := Pop(recent, item.key);
      }
      assert Q() == if item.key == "" then old(Q()) else old(Q()).(recent := Pop(old(recent), item.key));
      Insert(item);
    }

    /** The loop of `resume`. */
    method Restore(held: seq<Record>, active: set<string>) returns (restored: int)
      requires Valid() && HeldOk(Q(), held)
      requires items.Keys <= ledger.used && running <= items.Keys
      modifies this
      ensures Valid() && Q() == Resumed(old(Q()), held, active)
      ensures restored == |items| - |old(items)|
    {
      ghost var q := Q();
      var before := |items|;
      var i := 0;
      while i < |held|
        invariant i <= |held|
        invariant Valid() && Q() == Resumed(q, held[..i], active)
        invariant items.Keys <= ledger.used <= q.ledger.used + IdsOf(held[..i]) && running <= items.Keys
      {
        ResumedPrefix(q, held, i, active);
        ResumedOneGrows(Q(), held[i], active);
        RestoreOne(held[i], active);
        i := i + 1;
      }
      assert held[..i] == held;
      restored := |items| - before;
    }
  }
}
