/** A restart is a round trip: what `flush` writes, `preload` and `resume` of the next process give back. */
module Restart {
  import opened Basics
  import opened Items
  import opened Queues
  import opened Store
  import opened Machine
  import opened Safety
  import Executions

  /** The next process, once `preload` and `resume` have run. */
  ghost function Restarted(file: File, active: set<string>): State {
    NextOutside(NextOutside(Init(), Preload(file)), Resume(active))
  }

  // ---- resuming in parts -------------------------------------------------------------------

  lemma {:induction false} ResumedAppend(q: Queue, a: seq<Record>, b: seq<Record>, active: set<string>)
    ensures Resumed(q, a + b, active) == Resumed(Resumed(q, a, active), b, active)
  {
    if b == [] {
      assert a + b == a;
    } else {
      assert (a + b)[..|a + b| - 1] == a + b[..|b| - 1];
      ResumedAppend(q, a, b[..|b| - 1], active);
    }
  }

  lemma RestoredParts(q: Queue, item: PendingItem)
    ensures var r := Restored(q, item);
      && r.items == q.items[item.id := item] && r.running == q.running && r.cancelled == q.cancelled
      && r.keys == (if item.key == "" then q.keys else q.keys[item.key := item.id])
      && r.recent == (if item.key == "" then q.recent else Pop(q.recent, item.key))
  {
  }

  /** `resume` looks at the items, the key index and the recent keys, and at nothing else. */
  ghost predicate Alike(a: Queue, b: Queue) {
    a.items == b.items && a.keys == b.keys && a.recent == b.recent
  }

  lemma ResumedOneAlike(a: Queue, b: Queue, record: Record, active: set<string>)
    requires Alike(a, b)
    ensures Alike(ResumedOne(a, record, active), ResumedOne(b, record, active))
    ensures ResumedOne(a, record, active).running == a.running
    ensures ResumedOne(a, record, active).cancelled == a.cancelled
  {
    if record.Runnable? {
      RestoredParts(a, record.item);
      RestoredParts(b, record.item);
    }
  }

  lemma {:induction false} ResumedAlike(a: Queue, b: Queue, held: seq<Record>, active: set<string>)
    requires Alike(a, b)
    ensures Alike(Resumed(a, held, active), Resumed(b, held, active))
    ensures Resumed(a, held, active).running == a.running
    ensures Resumed(a, held, active).cancelled == a.cancelled
  {
    if held != [] {
      var front, last := held[..|held| - 1], held[|held| - 1];
      ResumedAlike(a, b, front, active);
      ResumedOneAlike(Resumed(a, front, active), Resumed(b, front, active), last, active);
    }
  }

  /** The recent keys only lose what becomes live: they do not decide what is restored. */
  lemma {:induction false} RestoringIgnoresRecent(a: Queue, recent: seq<string>, held: seq<Record>, active: set<string>)
    ensures var r, t := Resumed(a, held, active), Resumed(a.(recent := recent), held, active);
      t.items == r.items && t.keys == r.keys
  {
    if held != [] {
      RestoringIgnoresRecent(a, recent, held[..|held| - 1], active);
    }
  }

  // ---- the live items come back ----------------------------------------------------------------

  /** Of the first `n` live items those whose job is active are back, each under its own key. */
  ghost predicate Back(q: Queue, order: seq<string>, n: nat, active: set<string>, r: Queue)
    requires n <= |order|
  {
    && r.running == {} && r.cancelled == {}
    && ItemsBack(q, order[..n], active, r.items) && KeysBack(q, order[..n], active, r.keys)
  }

  predicate Returns(q: Queue, ids: seq<string>, active: set<string>, id: string) {
    id in ids && id in q.items && q.items[id].job in active
  }

  ghost predicate ItemsBack(q: Queue, ids: seq<string>, active: set<string>, items: map<string, PendingItem>) {
    && (forall id :: id in items <==> Returns(q, ids, active, id))
    && (forall id :: id in items ==> items[id] == q.items[id])
  }

  ghost predicate KeysBack(q: Queue, ids: seq<string>, active: set<string>, keys: map<string, string>) {
    && (forall k :: k in keys <==> k in q.keys && Returns(q, ids, active, q.keys[k]))
    && (forall k :: k in keys ==> keys[k] == q.keys[k])
  }

  /** The next live item is not there yet, and neither is its key. */
  lemma NextIsNew(q: Queue, order: seq<string>, n: nat, r: Queue, active: set<string>)
    requires IdsOk(q) && KeysOk(q) && n < |order| && Distinct(order)
    requires forall id :: id in order ==> id in q.items
    requires q.items[order[n]].job in active && Back(q, order, n, active, r)
    ensures ResumedOne(r, Runnable(q.items[order[n]]), active) == Restored(r, q.items[order[n]])
  {
    var item := q.items[order[n]];
    assert order[n] !in order[..n];
    assert item.id == order[n] && item.id !in r.items;
    if item.key != "" { assert q.keys[item.key] == order[n]; }
  }

  lemma ItemsOneMore(q: Queue, order: seq<string>, n: nat, active: set<string>, items: map<string, PendingItem>)
    requires IdsOk(q) && n < |order| && order[n] in q.items && q.items[order[n]].job in active
    requires ItemsBack(q, order[..n], active, items)
    ensures ItemsBack(q, order[..n + 1], active, items[order[n] := q.items[order[n]]])
  {
    assert order[..n + 1] == order[..n] + [order[n]];
  }

  lemma KeysOneMore(q: Queue, order: seq<string>, n: nat, active: set<string>, keys: map<string, string>)
    requires KeysOk(q) && n < |order| && order[n] in q.items && q.items[order[n]].job in active
    requires KeysBack(q, order[..n], active, keys)
    ensures var key := q.items[order[n]].key;
      KeysBack(q, order[..n + 1], active, if key == "" then keys else keys[key := order[n]])
  {
    assert order[..n + 1] == order[..n] + [order[n]];
    if q.items[order[n]].key != "" { assert q.keys[q.items[order[n]].key] == order[n]; }
  }

  lemma BackOneLess(q: Queue, order: seq<string>, n: nat, active: set<string>, r: Queue)
    requires n < |order| && order[n] in q.items && q.items[order[n]].job !in active && Back(q, order, n, active, r)
    ensures Back(q, order, n + 1, active, r)
  {
    assert order[..n + 1] == order[..n] + [order[n]];
  }

  lemma OneMoreComesBack(q: Queue, order: seq<string>, n: nat, r: Queue, active: set<string>)
    requires IdsOk(q) && KeysOk(q) && n < |order| && Distinct(order)
    requires forall id :: id in order ==> id in q.items
    requires Back(q, order, n, active, r)
    ensures Back(q, order, n + 1, active, ResumedOne(r, Runnable(q.items[order[n]]), active))
  {
    if q.items[order[n]].job in active {
      NextIsNew(q, order, n, r, active);
      RestoredParts(r, q.items[order[n]]);
      ItemsOneMore(q, order, n, active, r.items);
      KeysOneMore(q, order, n, active, r.keys);
    } else {
      BackOneLess(q, order, n, active, r);
    }
  }

  lemma {:induction false} LiveComeBack(q: Queue, order: seq<string>, n: nat, r: Queue, active: set<string>)
    requires IdsOk(q) && KeysOk(q) && n <= |order| && Distinct(order)
    requires forall id :: id in order ==> id in q.items
    requires r.items == map[] && r.keys == map[] && r.running == {} && r.cancelled == {}
    ensures Back(q, order, n, active, Resumed(r, Runnables(q.items, order)[..n], active))
  {
    var records := Runnables(q.items, order);
    if n > 0 {
      LiveComeBack(q, order, n - 1, r, active);
      assert records[..n][..n - 1] == records[..n - 1] && records[..n][n - 1] == Runnable(q.items[order[n - 1]]);
      OneMoreComesBack(q, order, n - 1, Resumed(r, records[..n - 1], active), active);
    }
  }

  lemma AllBack(q: Queue, order: seq<string>, active: set<string>, r: Queue)
    requires KeysOk(q) && Enumerates(order, q.items.Keys) && Back(q, order, |order|, active, r)
    requires forall id :: id in q.items ==> q.items[id].job in active
    ensures r.items == q.items && r.keys == q.keys
  {
    assert order[..|order|] == order;
  }

  // ---- the recent keys come back ------------------------------------------------------------------

  lemma {:induction false} WithKeysOfNew(recent: seq<string>, keys: seq<string>)
    requires Distinct(keys) && forall k :: k in keys ==> k !in recent
    ensures WithKeys(recent, keys) == recent + keys
  {
    if keys != [] {
      var front := keys[..|keys| - 1];
      WithKeysOfNew(recent, front);
      assert keys == front + [keys[|keys| - 1]];
    }
  }

  lemma {:induction false} WithKeysOfKnown(recent: seq<string>, keys: seq<string>)
    requires forall k :: k in keys ==> k in recent
    ensures WithKeys(recent, keys) == recent
  {
    if keys != [] {
      assert forall k :: k in keys[..|keys| - 1] ==> k in keys;
      WithKeysOfKnown(recent, keys[..|keys| - 1]);
    }
  }

  lemma {:induction false} WithKeysAppend(recent: seq<string>, a: seq<string>, b: seq<string>)
    ensures WithKeys(recent, a + b) == WithKeys(WithKeys(recent, a), b)
  {
    if b == [] {
      assert a + b == a;
    } else {
      assert (a + b)[..|a + b| - 1] == a + b[..|b| - 1];
      WithKeysAppend(recent, a, b[..|b| - 1]);
    }
  }

  lemma {:induction false} KeysOfAppend(a: seq<Record>, b: seq<Record>)
    ensures KeysOf(a + b) == KeysOf(a) + KeysOf(b)
  {
    if b == [] {
      assert a + b == a;
    } else {
      assert (a + b)[..|a + b| - 1] == a + b[..|b| - 1];
      KeysOfAppend(a, b[..|b| - 1]);
    }
  }

  /** The keys of the first `n` live items, in their order. */
  lemma {:induction false} KeysOfLive(q: Queue, order: seq<string>, n: nat)
    requires IdsOk(q) && KeysOk(q) && n <= |order| && Distinct(order)
    requires forall id :: id in order ==> id in q.items
    ensures AreKeysOf(q, order[..n], KeysOf(Runnables(q.items, order)[..n]))
  {
    var records := Runnables(q.items, order);
    if n > 0 {
      KeysOfLive(q, order, n - 1);
      assert order[n - 1] !in order[..n - 1] && order[n - 1] in order;
      assert order[..n] == order[..n - 1] + [order[n - 1]];
      KeysOfLast(records[..n], records[..n - 1], Runnable(q.items[order[n - 1]]));
      OneMoreKey(q, order[..n - 1], KeysOf(records[..n - 1]), order[n - 1]);
    }
  }

  ghost predicate AreKeysOf(q: Queue, ids: seq<string>, keys: seq<string>) {
    Distinct(keys) && forall k :: k in keys <==> k in q.keys && q.keys[k] in ids
  }

  lemma OneMoreKey(q: Queue, ids: seq<string>, keys: seq<string>, id: string)
    requires IdsOk(q) && KeysOk(q) && id in q.items && id !in ids && AreKeysOf(q, ids, keys)
    ensures AreKeysOf(q, ids + [id], keys + if q.items[id].key == "" then [] else [q.items[id].key])
  {
    var key := q.items[id].key;
    if key == "" {
      assert keys + [] == keys;
    } else {
      assert q.keys[key] == id;
      DistinctAppend(keys, key);
    }
  }

  lemma PopFirst(recent: seq<string>, key: string, rest: seq<string>)
    requires key !in recent
    ensures Pop(recent + [key] + rest, key) == recent + rest
  {
    PopIndex(recent, key, rest);
    var s := recent + [key] + rest;
    assert s[..|recent|] == recent && s[|recent| + 1..] == rest;
  }

  lemma {:induction false} PopIndex(recent: seq<string>, key: string, rest: seq<string>)
    requires key !in recent
    ensures key in recent + [key] + rest && IndexOf(recent + [key] + rest, key) == |recent|
  {
    var s := recent + [key] + rest;
    assert s[|recent|] == key;
    if recent != [] {
      assert s[1..] == recent[1..] + [key] + rest;
      PopIndex(recent[1..], key, rest);
    }
  }

  /** Restoring the live items takes their keys out of the recent ones again, and leaves the others in order. */
  lemma {:induction false} LiveKeysArePopped(q: Queue, order: seq<string>, n: nat, r: Queue, recent: seq<string>,
                                             rest: seq<string>, active: set<string>)
    requires IdsOk(q) && KeysOk(q) && n <= |order| && Distinct(order)
    requires forall id :: id in order ==> id in q.items && q.items[id].job in active
    requires r.items == map[] && r.keys == map[] && r.running == {} && r.cancelled == {}
    requires r.recent == recent + KeysOf(Runnables(q.items, order)[..n]) + rest
    requires forall k :: k in recent ==> k !in q.keys
    ensures Resumed(r, Runnables(q.items, order)[..n], active).recent == recent + rest
  {
    var records := Runnables(q.items, order);
    if n > 0 {
      var m := n - 1;
      var item := q.items[order[m]];
      assert order[m] in order;
      var keys := if item.key == "" then [] else [item.key];
      assert KeysOf(records[..n]) == KeysOf(records[..m]) + keys by {
        KeysOfLast(records[..n], records[..m], Runnable(item));
      }
      Regroup(recent, KeysOf(records[..m]), keys, rest);
      LiveKeysArePopped(q, order, m, r, recent, keys + rest, active);
      LastLiveIsPopped(q, order, m, r, recent, rest, active);
    }
  }

  lemma Regroup(a: seq<string>, b: seq<string>, c: seq<string>, d: seq<string>)
    ensures a + (b + c) + d == a + b + (c + d)
  {
  }

  lemma KeysOfLast(all: seq<Record>, front: seq<Record>, last: Record)
    requires all == front + [last]
    ensures KeysOf(all) == KeysOf(front) + if last.Key() == "" then [] else [last.Key()]
  {
    assert all[..|all| - 1] == front;
  }

  lemma LastLiveIsPopped(q: Queue, order: seq<string>, m: nat, r: Queue, recent: seq<string>, rest: seq<string>,
                         active: set<string>)
    requires IdsOk(q) && KeysOk(q) && m < |order| && Distinct(order)
    requires forall id :: id in order ==> id in q.items && q.items[id].job in active
    requires r.items == map[] && r.keys == map[] && r.running == {} && r.cancelled == {}
    requires order[m] in order
    requires var keys := if q.items[order[m]].key == "" then [] else [q.items[order[m]].key];
      Resumed(r, Runnables(q.items, order)[..m], active).recent == recent + (keys + rest)
    requires forall k :: k in recent ==> k !in q.keys
    ensures Resumed(r, Runnables(q.items, order)[..m + 1], active).recent == recent + rest
  {
    var records := Runnables(q.items, order);
    var before := Resumed(r, records[..m], active);
    var item := q.items[order[m]];
    assert records[..m + 1][..m] == records[..m] && records[..m + 1][m] == Runnable(item);
    LiveComeBack(q, order, m, r, active);
    NextIsNew(q, order, m, before, active);
    KeyIsPopped(before, item, recent, rest);
  }

  lemma KeyIsPopped(q: Queue, item: PendingItem, recent: seq<string>, rest: seq<string>)
    requires q.recent == recent + ((if item.key == "" then [] else [item.key]) + rest)
    requires item.key != "" ==> item.key !in recent
    ensures Restored(q, item).recent == recent + rest
  {
    RestoredParts(q, item);
    if item.key != "" {
      assert recent + ([item.key] + rest) == recent + [item.key] + rest;
      PopFirst(recent, item.key, rest);
    }
  }

  // ---- the round trip ---------------------------------------------------------------------------------

  /** The file holds everything: the live items and the held ones fit. */
  lemma FlushedIsWhole(s: State, order: seq<string>)
    requires Enumerates(order, s.q.items.Keys) && |s.q.items| + |s.held| <= MAX_PENDING
    ensures LoadedItems(Flushed(s, order)) == Runnables(s.q.items, order) + s.held
    ensures LoadedRecent(Flushed(s, order)) == LastN(s.q.recent, RECENT_KEYS)
  {
    OrderIsAsLong(order, s.q.items.Keys);
  }

  lemma {:induction false} OrderIsAsLong(order: seq<string>, ids: set<string>)
    requires Enumerates(order, ids)
    ensures |order| == |ids|
  {
    if order == [] {
      assert ids == {};
    } else {
      var front, last := order[..|order| - 1], order[|order| - 1];
      assert order == front + [last];
      assert last !in front;
      OrderIsAsLong(front, ids - {last});
    }
  }

  /** The queue that the next process starts `resume` with. */
  ghost function Booted(s: State, order: seq<string>): Queue
    requires forall id :: id in order ==> id in s.q.items
  {
    EMPTY.(recent := Preloaded(Flushed(s, order)))
  }

  lemma RestartedIs(s: State, order: seq<string>, active: set<string>)
    requires Enumerates(order, s.q.items.Keys) && |s.q.items| + |s.held| <= MAX_PENDING
    ensures Restarted(Flushed(s, order), active).q
            == Resumed(Resumed(Booted(s, order), Runnables(s.q.items, order), active), s.held, active)
  {
    FlushedIsWhole(s, order);
    ResumedAppend(Booted(s, order), Runnables(s.q.items, order), s.held, active);
  }

  /** After the live items are restored the next process has the items and the key index of the one before. */
  lemma LiveIsAsBefore(s: State, order: seq<string>, active: set<string>)
    requires IdsOk(s.q) && KeysOk(s.q) && Enumerates(order, s.q.items.Keys)
    requires forall id :: id in s.q.items ==> s.q.items[id].job in active
    ensures var r := Resumed(Booted(s, order), Runnables(s.q.items, order), active);
      r.items == s.q.items && r.keys == s.q.keys && r.running == {} && r.cancelled == {}
  {
    var records := Runnables(s.q.items, order);
    LiveComeBack(s.q, order, |order|, Booted(s, order), active);
    assert records[..|order|] == records;
    AllBack(s.q, order, active, Resumed(Booted(s, order), records, active));
  }

  /** A restart loses no work: the next process has exactly the items that `resume` would have given this one,
      with their due times, attempts, floods and phases, under the same keys, and none of them is running. */
  lemma RestartLosesNoWork(s: State, order: seq<string>, active: set<string>)
    requires Safety.Inv(s) && Enumerates(order, s.q.items.Keys)
    requires |s.q.items| + |s.held| <= MAX_PENDING
    requires forall id :: id in s.q.items ==> s.q.items[id].job in active
    ensures var t := Restarted(Flushed(s, order), active);
      && t.q.items == Resumed(s.q, s.held, active).items
      && t.q.keys == Resumed(s.q, s.held, active).keys
      && t.q.running == {} && t.q.cancelled == {} && t.held == []
    ensures s.held == [] ==> Restarted(Flushed(s, order), active).q.items == s.q.items
  {
    var live := Resumed(Booted(s, order), Runnables(s.q.items, order), active);
    RestartedIs(s, order, active);
    LiveIsAsBefore(s, order, active);
    ResumedAlike(live, s.q.(recent := live.recent), s.held, active);
    RestoringIgnoresRecent(s.q, live.recent, s.held, active);
  }

  /** The keys of held items that no live item has taken. */
  function NotLive(keys: seq<string>, live: map<string, string>): seq<string> {
    if keys == [] then []
    else NotLive(keys[..|keys| - 1], live) + if keys[|keys| - 1] in live then [] else [keys[|keys| - 1]]
  }

  /** What the held keys add behind the remembered ones. */
  lemma {:induction false} HeldKeysFollow(recent: seq<string>, live: seq<string>, held: seq<string>,
                                          keys: map<string, string>) returns (rest: seq<string>)
    requires forall k :: k in live <==> k in keys
    ensures WithKeys(recent + live, held) == recent + live + rest
    ensures WithKeys(recent, NotLive(held, keys)) == recent + rest
  {
    if held == [] {
      rest := [];
    } else {
      var last := held[|held| - 1];
      var before := HeldKeysFollow(recent, live, held[..|held| - 1], keys);
      var more := if last in keys || last in recent + before then [] else [last];
      rest := before + more;
      assert recent + live + rest == (recent + live + before) + more;
      assert recent + rest == (recent + before) + more;
      NotLiveLast(recent, held, keys);
    }
  }

  lemma NotLiveLast(recent: seq<string>, held: seq<string>, keys: map<string, string>)
    requires held != []
    ensures var last := held[|held| - 1];
      var before := WithKeys(recent, NotLive(held[..|held| - 1], keys));
      WithKeys(recent, NotLive(held, keys)) == if last in keys then before else WithKey(before, last)
  {
    var front := NotLive(held[..|held| - 1], keys);
    if held[|held| - 1] !in keys { assert (front + [held[|held| - 1]])[..|front|] == front; }
    else { assert front + [] == front; }
  }

  lemma LiveKeysAreNew(q: Queue, order: seq<string>)
    requires IdsOk(q) && KeysOk(q) && RecentOk(q) && Enumerates(order, q.items.Keys)
    ensures Distinct(KeysOf(Runnables(q.items, order)))
    ensures forall k :: k in KeysOf(Runnables(q.items, order)) <==> k in q.keys
  {
    KeysOfLive(q, order, |order|);
    assert Runnables(q.items, order)[..|order|] == Runnables(q.items, order);
  }

  lemma LastFew(recent: seq<string>, n: nat)
    requires Distinct(recent)
    ensures Distinct(LastN(recent, n)) && forall k :: k in LastN(recent, n) ==> k in recent
  {
  }

  lemma PreloadedKeys(s: State, order: seq<string>) returns (rest: seq<string>)
    requires IdsOk(s.q) && KeysOk(s.q) && RecentOk(s.q)
    requires Enumerates(order, s.q.items.Keys) && |s.q.items| + |s.held| <= MAX_PENDING
    ensures Preloaded(Flushed(s, order))
            == LastN(s.q.recent, RECENT_KEYS) + KeysOf(Runnables(s.q.items, order)) + rest
    ensures WithKeys(LastN(s.q.recent, RECENT_KEYS), NotLive(KeysOf(s.held), s.q.keys))
            == LastN(s.q.recent, RECENT_KEYS) + rest
  {
    var recent, live := LastN(s.q.recent, RECENT_KEYS), KeysOf(Runnables(s.q.items, order));
    FlushedIsWhole(s, order);
    KeysOfAppend(Runnables(s.q.items, order), s.held);
    LiveKeysAreNew(s.q, order);
    LastFew(s.q.recent, RECENT_KEYS);
    WithKeysOfNew([], recent);
    assert [] + recent == recent;
    WithKeysOfNew(recent, live);
    WithKeysAppend(recent, live, KeysOf(s.held));
    rest := HeldKeysFollow(recent, live, KeysOf(s.held), s.q.keys);
  }

  lemma AllLiveKeysArePopped(q: Queue, order: seq<string>, r: Queue, recent: seq<string>, rest: seq<string>,
                             active: set<string>)
    requires IdsOk(q) && KeysOk(q) && Enumerates(order, q.items.Keys)
    requires forall id :: id in q.items ==> q.items[id].job in active
    requires r.items == map[] && r.keys == map[] && r.running == {} && r.cancelled == {}
    requires r.recent == recent + KeysOf(Runnables(q.items, order)) + rest
    requires forall k :: k in recent ==> k !in q.keys
    ensures Resumed(r, Runnables(q.items, order), active).recent == recent + rest
  {
    var records := Runnables(q.items, order);
    assert records[..|order|] == records;
    LiveKeysArePopped(q, order, |order|, r, recent, rest, active);
  }

  /** The keys that block before `resume`: the last of the remembered ones, and behind them those of held items
      that have been evicted since they were loaded. */
  function Remaining(s: State): seq<string> {
    WithKeys(LastN(s.q.recent, RECENT_KEYS), NotLive(KeysOf(s.held), s.q.keys))
  }

  lemma RecentAsBefore(s: State, order: seq<string>, active: set<string>)
    requires IdsOk(s.q) && KeysOk(s.q) && RecentOk(s.q)
    requires Enumerates(order, s.q.items.Keys) && |s.q.items| + |s.held| <= MAX_PENDING
    requires forall id :: id in s.q.items ==> s.q.items[id].job in active
    ensures Resumed(Booted(s, order), Runnables(s.q.items, order), active).recent == Remaining(s)
  {
    var recent := LastN(s.q.recent, RECENT_KEYS);
    var rest := PreloadedKeys(s, order);
    assert forall k :: k in recent ==> k !in s.q.keys by { LastFew(s.q.recent, RECENT_KEYS); }
    AllLiveKeysArePopped(s.q, order, Booted(s, order), recent, rest, active);
  }

  lemma RemainingIsRecent(s: State)
    requires forall k :: k in KeysOf(s.held) ==> k in s.q.keys || k in LastN(s.q.recent, RECENT_KEYS)
    ensures Remaining(s) == LastN(s.q.recent, RECENT_KEYS)
  {
    NotLiveMembers(KeysOf(s.held), s.q.keys);
    WithKeysOfKnown(LastN(s.q.recent, RECENT_KEYS), NotLive(KeysOf(s.held), s.q.keys));
  }

  lemma {:induction false} NotLiveMembers(keys: seq<string>, live: map<string, string>)
    ensures forall k :: k in NotLive(keys, live) <==> k in keys && k !in live
  {
    if keys != [] {
      NotLiveMembers(keys[..|keys| - 1], live);
      assert keys == keys[..|keys| - 1] + [keys[|keys| - 1]];
    }
  }

  /** The remembered keys come back in their order too: the last `RECENT_KEYS` of them, followed by the keys of held
      items that were evicted meanwhile and are blocked anew. While none was evicted, exactly the remembered ones. */
  lemma RestartKeepsRecentKeys(s: State, order: seq<string>, active: set<string>)
    requires Safety.Inv(s) && Enumerates(order, s.q.items.Keys)
    requires |s.q.items| + |s.held| <= MAX_PENDING
    requires forall id :: id in s.q.items ==> s.q.items[id].job in active
    ensures Restarted(Flushed(s, order), active).q.recent
            == Resumed(s.q.(recent := Remaining(s)), s.held, active).recent
    ensures (forall k :: k in KeysOf(s.held) ==> k in s.q.keys || k in LastN(s.q.recent, RECENT_KEYS)) ==>
      Remaining(s) == LastN(s.q.recent, RECENT_KEYS)
  {
    var live := Resumed(Booted(s, order), Runnables(s.q.items, order), active);
    RestartedIs(s, order, active);
    LiveIsAsBefore(s, order, active);
    RecentAsBefore(s, order, active);
    ResumedAlike(live, s.q.(recent := Remaining(s)), s.held, active);
    if forall k :: k in KeysOf(s.held) ==> k in s.q.keys || k in LastN(s.q.recent, RECENT_KEYS) {
      RemainingIsRecent(s);
    }
  }

  // ---- which items come back -------------------------------------------------------------------------

  /** The live items the file has room for. */
  function Written(order: seq<string>): seq<string> {
    if |order| <= MAX_PENDING then order else order[..MAX_PENDING]
  }

  lemma WrittenFirst(s: State, order: seq<string>) returns (rest: seq<Record>)
    requires forall id :: id in order ==> id in s.q.items
    ensures LoadedItems(Flushed(s, order)) == Runnables(s.q.items, order)[..|Written(order)|] + rest
    ensures Written(order) == order[..|Written(order)|] && rest <= s.held
  {
    var live := Runnables(s.q.items, order);
    var loaded := LoadedItems(Flushed(s, order));
    rest := loaded[|Written(order)|..];
    assert live[..|order|] == live;
    assert loaded[..|Written(order)|] == live[..|Written(order)|];
    assert forall i :: 0 <= i < |rest| ==> rest[i] == s.held[i];
  }

  lemma {:induction false} ResumedSparesOthers(q: Queue, held: seq<Record>, active: set<string>, id: string)
    requires forall i :: 0 <= i < |held| ==> held[i].Id() != id
    ensures var r := Resumed(q, held, active);
      (id in r.items <==> id in q.items) && (id in q.items ==> r.items[id] == q.items[id])
      && r.running == q.running && r.cancelled == q.cancelled
  {
    if held != [] {
      var front, last := held[..|held| - 1], held[|held| - 1];
      ResumedSparesOthers(q, front, active, id);
      if last.Runnable? { RestoredParts(Resumed(q, front, active), last.item); }
    }
  }

  lemma RestartedLive(s: State, order: seq<string>, active: set<string>, id: string)
    requires IdsOk(s.q) && KeysOk(s.q) && Enumerates(order, s.q.items.Keys) && id !in IdsOf(s.held)
    ensures var t, n := Restarted(Flushed(s, order), active), |Written(order)|;
      && (id in t.q.items <==> Returns(s.q, order[..n], active, id))
      && (id in t.q.items ==> t.q.items[id] == s.q.items[id])
      && t.q.running == {} && t.q.cancelled == {}
  {
    var rest := WrittenFirst(s, order);
    var live := Runnables(s.q.items, order)[..|Written(order)|];
    ResumedAppend(Booted(s, order), live, rest, active);
    LiveComeBack(s.q, order, |Written(order)|, Booted(s, order), active);
    forall i | 0 <= i < |rest| ensures rest[i].Id() != id {
      assert rest[i] == s.held[i] && s.held[i].Id() in IdsOf(s.held);
    }
    ResumedSparesOthers(Resumed(Booted(s, order), live, active), rest, active, id);
  }

  /** A restart brings an item back, as it was and to be executed, exactly when its job is active and the file had
      room for it. Whether it was cancelled makes no difference, and no mark of that is left. */
  lemma ComesBackWhen(s: State, order: seq<string>, active: set<string>, id: string)
    requires Safety.Inv(s) && Enumerates(order, s.q.items.Keys) && id in s.q.ledger.used
    ensures var t := Restarted(Flushed(s, order), active);
      && (id in t.q.items <==> id in Written(order) && id in s.q.items && s.q.items[id].job in active)
      && (id in t.q.items ==> t.q.items[id] == s.q.items[id])
      && t.q.running == {} && t.q.cancelled == {}
  {
    assert id !in IdsOf(s.held);
    RestartedLive(s, order, active, id);
    var rest := WrittenFirst(s, order);
  }

  /** An item cancelled while it ran is live again after the restart exactly when its execution was broken off by a
      stop, its job is active and the file had room for it; and then nothing tells that it was cancelled. */
  lemma CancelledComesBackWhen(s: State, e: Event, kind: Kind, order: seq<string>, active: set<string>, id: string)
    requires Safety.Inv(s) && Enabled(s, e) && Executions.Ends(e, kind) && Executions.IsDoomed(s.q, kind, id)
    requires Enumerates(order, Next(s, e).q.items.Keys)
    ensures var t := Restarted(Flushed(Next(s, e), order), active);
      && (id in t.q.items <==> e.Stop? && id in Written(order) && s.q.items[id].job in active)
      && t.q.cancelled == {}
  {
    NextKeeps(s, e);
    Executions.CancelledLeavesBySettling(s, e, kind, id);
    ComesBackWhen(Next(s, e), order, active, id);
  }

  // ---- keys stay blocked -----------------------------------------------------------------------------

  predicate Blocked(q: Queue, key: string) {
    key in q.keys || key in q.recent
  }

  lemma ResumedOneBlocks(q: Queue, record: Record, active: set<string>, key: string)
    requires Distinct(q.recent) && Blocked(q, key)
    ensures Distinct(ResumedOne(q, record, active).recent) && Blocked(ResumedOne(q, record, active), key)
  {
    if ResumedOne(q, record, active) != q {
      RestoredParts(q, record.item);
      PopMembers(q.recent, record.item.key);
    }
  }

  lemma {:induction false} ResumedBlocks(q: Queue, held: seq<Record>, active: set<string>, key: string)
    requires Distinct(q.recent) && Blocked(q, key)
    ensures Distinct(Resumed(q, held, active).recent) && Blocked(Resumed(q, held, active), key)
  {
    if held != [] {
      ResumedBlocks(q, held[..|held| - 1], active, key);
      ResumedOneBlocks(Resumed(q, held[..|held| - 1], active), held[|held| - 1], active, key);
    }
  }

  lemma {:induction false} KeysOfMembers(held: seq<Record>)
    ensures forall i :: 0 <= i < |held| && held[i].Key() != "" ==> held[i].Key() in KeysOf(held)
  {
    if held != [] {
      KeysOfMembers(held[..|held| - 1]);
      forall i | 0 <= i < |held| && held[i].Key() != "" ensures held[i].Key() in KeysOf(held) {
        if i < |held| - 1 { assert held[..|held| - 1][i].Key() in KeysOf(held[..|held| - 1]); }
      }
    }
  }

  /** Whatever the file held, its key is blocked after the restart: a replay of it is a duplicate. */
  lemma LoadedKeysStayBlocked(file: File, active: set<string>, i: nat, item: PendingItem, album: Option<Album>)
    requires i < |LoadedItems(file)| && LoadedItems(file)[i].Key() != "" && item.key == LoadedItems(file)[i].Key()
    ensures SubmitAnswer(Restarted(file, active), item, album) == Duplicate
  {
    KeysOfMembers(LoadedItems(file));
    WithKeysDistinct([], LoadedRecent(file));
    WithKeysDistinct(WithKeys([], LoadedRecent(file)), KeysOf(LoadedItems(file)));
    ResumedBlocks(EMPTY.(recent := Preloaded(file)), LoadedItems(file), active, item.key);
  }

  lemma {:induction false} GoneJobsAreNotQueued(q: Queue, held: seq<Record>, active: set<string>, id: string)
    requires forall i :: 0 <= i < |held| && held[i].Id() == id ==> held[i].Foreign? || held[i].Job() !in active
    ensures id in Resumed(q, held, active).items ==> id in q.items
  {
    if held != [] {
      var last := held[|held| - 1];
      GoneJobsAreNotQueued(q, held[..|held| - 1], active, id);
      var r := Resumed(q, held[..|held| - 1], active);
      if ResumedOne(r, last, active) != r { RestoredParts(r, last.item); }
    }
  }

  /** A held item whose job is gone, or whose action is, is not queued. */
  lemma GoneJobIsDropped(file: File, active: set<string>, i: nat)
    requires forall a, b :: 0 <= a < b < |LoadedItems(file)| ==> LoadedItems(file)[a].Id() != LoadedItems(file)[b].Id()
    requires i < |LoadedItems(file)|
    requires LoadedItems(file)[i].Foreign? || LoadedItems(file)[i].Job() !in active
    ensures LoadedItems(file)[i].Id() !in Restarted(file, active).q.items
  {
    GoneJobsAreNotQueued(EMPTY.(recent := Preloaded(file)), LoadedItems(file), active, LoadedItems(file)[i].Id());
  }
}
