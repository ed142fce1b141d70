/** How long a key that was loaded stays blocked: to the finish that pushes it out of the recent keys. */
module Eviction {
  import opened Basics
  import opened Items
  import opened Queues
  import opened Store
  import opened Machine
  import opened Safety
  import opened Accounts
  import opened Restart

  // ---- how the recent keys move ----------------------------------------------------------------

  lemma HandingInAges(s: State, e: Event)
    requires IdsOk(s.q) && (e.Submit? || e.CountOnly? || e.ForgetJob?)
    ensures Ages(s.q, NextOutside(s, e).q)
  {
    match e
    case Submit(item, album, hasCaption) => SubmitFacts(s, item, album, hasCaption, ("", 0), React);
    case CountOnly(at, a, outcome) => TalliedFacts(s.q, at, a, outcome, ("", 0), React);
    case ForgetJob(job) => ForgottenFacts(s.q, job, ("", 0), React);
  }

  lemma EventAges(s: State, e: Event, t: State)
    requires Safety.Inv(s) && Takes(s, e, t) && !e.Preload? && !e.Resume?
    ensures Ages(s.q, t.q)
  {
    if e.Submit? || e.CountOnly? || e.ForgetJob? { HandingInAges(s, e); } else { NextMoves(s, e); }
  }

  /** Only an accepted submission schedules a key, and it finishes none. */
  ghost predicate Schedules(s: State, e: Event, t: State, key: string) {
    && e.Submit? && e.item.key == key && SubmitAnswer(s, e.item, e.album) == Scheduled
    && t.q.ledger.finishes == s.q.ledger.finishes
  }

  lemma TallySchedulesNothing(q: Queue, slot: Slot, action: Kind, outcome: Outcome)
    ensures var r := Tallied(q, slot, action, outcome);
      r.ledger.scheduled == q.ledger.scheduled && r.ledger.finishes == q.ledger.finishes
  {
  }

  lemma UnacceptedSchedulesNothing(s: State, item: PendingItem, album: Option<Album>, hasCaption: bool)
    requires SubmitAnswer(s, item, album) != Scheduled
    ensures SubmittedQueue(s, item, album, hasCaption).ledger.scheduled == s.q.ledger.scheduled
  {
    match SubmitAnswer(s, item, album)
    case Duplicate =>
    case AlbumMember =>
      var memo := s.albums[album.value];
      var m := if MovesToCaption(s, memo, hasCaption) then CaptionMoved(s.q, memo.itemId.value, item.msgId) else s.q;
      TallySchedulesNothing(m, SlotOf(item), item.action, Skipped);
    case Full => TallySchedulesNothing(s.q, SlotOf(item), item.action, Errors);
  }

  lemma InsertSchedules(q: Queue, item: PendingItem, key: string)
    requires key in Inserted(q, item).ledger.scheduled && key !in q.ledger.scheduled
    ensures item.key == key && Inserted(q, item).ledger.finishes == q.ledger.finishes
  {
  }

  lemma SubmitSchedules(s: State, item: PendingItem, album: Option<Album>, hasCaption: bool, key: string)
    requires key in SubmittedQueue(s, item, album, hasCaption).ledger.scheduled && key !in s.q.ledger.scheduled
    ensures item.key == key && SubmitAnswer(s, item, album) == Scheduled
    ensures SubmittedQueue(s, item, album, hasCaption).ledger.finishes == s.q.ledger.finishes
  {
    if SubmitAnswer(s, item, album) != Scheduled { UnacceptedSchedulesNothing(s, item, album, hasCaption); }
    else { InsertSchedules(s.q, item, key); }
  }

  lemma CountingSchedulesNothing(s: State, e: Event)
    requires e.CountOnly? || e.ForgetJob?
    ensures NextOutside(s, e).q.ledger.scheduled == s.q.ledger.scheduled
  {
  }

  lemma EventSchedules(s: State, e: Event, t: State, key: string)
    requires Safety.Inv(s) && Takes(s, e, t) && !e.Preload? && !e.Resume?
    requires key in t.q.ledger.scheduled && key !in s.q.ledger.scheduled
    ensures Schedules(s, e, t, key)
  {
    if e.Submit? { SubmitSchedules(s, e.item, e.album, e.hasCaption, key); }
    else if e.CountOnly? || e.ForgetJob? { CountingSchedulesNothing(s, e); }
    else { NextMoves(s, e); }
  }

  // ---- between preload and resume ------------------------------------------------------------------

  /** Event `p` loads the file, and up to state `n` nothing is resumed. */
  ghost predicate LoadedAt(states: seq<State>, events: seq<Event>, p: nat, n: nat) {
    && IsRun(states, events) && p < n < |states|
    && events[p].Preload? && forall k :: p < k < n ==> !events[k].Resume?
  }

  lemma LoadedOnce(states: seq<State>, events: seq<Event>, k: nat)
    requires IsRun(states, events) && k < |events|
    ensures states[k + 1].loaded == (events[k].Preload? || states[k].loaded)
    ensures events[k].Preload? ==> !states[k].loaded
  {
    var s, e := states[k], events[k];
    assert Takes(s, e, states[k + 1]) by { RunStep(states, events, k + 1); }
    if OfWorker(e) { assert OneCall(s, NextWorker(s, e)); }
  }

  lemma {:induction false} StaysLoaded(states: seq<State>, events: seq<Event>, p: nat, n: nat)
    requires LoadedAt(states, events, p, n)
    ensures states[n].loaded && (n < |events| ==> !events[n].Preload?)
  {
    LoadedOnce(states, events, n - 1);
    if n < |events| { LoadedOnce(states, events, n); }
    if n > p + 1 { StaysLoaded(states, events, p, n - 1); }
  }

  lemma JustLoaded(states: seq<State>, events: seq<Event>, p: nat)
    requires LoadedAt(states, events, p, p + 1)
    ensures states[p + 1].q == EMPTY.(recent := Preloaded(events[p].file))
    ensures states[p + 1].held == LoadedItems(events[p].file)
  {
    assert Safety.Inv(states[p]) by { RunKeeps(states, events, p); }
    assert Takes(states[p], events[p], states[p + 1]) by { RunStep(states, events, p + 1); }
  }

  lemma RunEventAges(states: seq<State>, events: seq<Event>, p: nat, n: nat, key: string)
    requires LoadedAt(states, events, p, n) && p + 1 < n
    ensures Ages(states[n - 1].q, states[n].q)
    ensures key in states[n].q.ledger.scheduled && key !in states[n - 1].q.ledger.scheduled ==>
      Schedules(states[n - 1], events[n - 1], states[n], key)
  {
    StaysLoaded(states, events, p, n - 1);
    var s, e, t := states[n - 1], events[n - 1], states[n];
    assert Safety.Inv(s) by { RunKeeps(states, events, n - 1); }
    assert Takes(s, e, t) by { RunStep(states, events, n); }
    EventAges(s, e, t);
    if key in t.q.ledger.scheduled && key !in s.q.ledger.scheduled { EventSchedules(s, e, t, key); }
  }

  lemma FinishesGrow(q: Queue, r: Queue)
    requires Ages(q, r)
    ensures q.ledger.finishes <= r.ledger.finishes
  {
    var keys :| Pushed(q, keys, r);
  }

  /** The recent keys are the loaded ones with those finished since behind them, cut to the last 5000 of them all. */
  lemma {:induction false} LoadedKeysAge(states: seq<State>, events: seq<Event>, p: nat, n: nat)
    requires LoadedAt(states, events, p, n)
    ensures Ages(EMPTY.(recent := Preloaded(events[p].file)), states[n].q)
  {
    if n == p + 1 {
      assert states[n].q == EMPTY.(recent := Preloaded(events[p].file)) by { JustLoaded(states, events, p); }
      NothingPushed(states[n].q, states[n].q);
    } else {
      var first, q, r := EMPTY.(recent := Preloaded(events[p].file)), states[n - 1].q, states[n].q;
      assert Ages(first, q) by { LoadedKeysAge(states, events, p, n - 1); }
      assert Ages(q, r) by { RunEventAges(states, events, p, n, ""); }
      AgesOn(first, q, r);
    }
  }

  // ---- when a loaded key is evicted --------------------------------------------------------------------

  /** Nothing has finished yet, or the place of the key counted from the end, and the finishes since, are within
      the number of keys that is remembered. */
  predicate Kept(loaded: seq<string>, i: nat, finishes: nat) {
    finishes == 0 || |loaded| - i + finishes <= RECENT_KEYS
  }

  lemma KeptByPlace(loaded: seq<string>, keys: seq<string>, i: nat)
    requires Distinct(loaded) && i < |loaded| && loaded[i] !in keys
    ensures loaded[i] in Behind(loaded, keys) <==> Kept(loaded, i, |keys|)
  {
    var all := loaded + keys;
    if keys == [] {
    } else if Kept(loaded, i, |keys|) {
      var gone := |all| - |LastN(all, RECENT_KEYS)|;
      assert LastN(all, RECENT_KEYS)[i - gone] == all[i] == loaded[i];
    } else {
      EvictedIsGone(loaded, keys, i);
    }
  }

  lemma EvictedIsGone(loaded: seq<string>, keys: seq<string>, i: nat)
    requires Distinct(loaded) && i < |loaded| && loaded[i] !in keys && |loaded| - i + |keys| > RECENT_KEYS
    ensures loaded[i] !in LastN(loaded + keys, RECENT_KEYS)
  {
    var all := loaded + keys;
    var kept := LastN(all, RECENT_KEYS);
    forall j | 0 <= j < |kept| ensures kept[j] != loaded[i] {
      var at := |all| - |kept| + j;
      assert kept[j] == all[at] && at > i;
      if at >= |loaded| { assert all[at] == keys[at - |loaded|]; }
    }
  }

  lemma PreloadedDistinct(file: File)
    ensures Distinct(Preloaded(file))
  {
    WithKeysDistinct([], LoadedRecent(file));
    WithKeysDistinct(WithKeys([], LoadedRecent(file)), KeysOf(LoadedItems(file)));
  }

  /** As long as a loaded key has not been scheduled again, its place decides whether it is blocked. */
  lemma UnscheduledByPlace(states: seq<State>, events: seq<Event>, p: nat, n: nat, i: nat)
    requires LoadedAt(states, events, p, n) && i < |Preloaded(events[p].file)|
    requires Preloaded(events[p].file)[i] !in states[n].q.ledger.scheduled
    ensures var loaded, q := Preloaded(events[p].file), states[n].q;
      && (loaded[i] in q.recent <==> Kept(loaded, i, q.ledger.finishes))
      && loaded[i] !in q.keys
  {
    var loaded, q := Preloaded(events[p].file), states[n].q;
    LoadedKeysAge(states, events, p, n);
    var keys :| Pushed(EMPTY.(recent := loaded), keys, q);
    PreloadedDistinct(events[p].file);
    KeptByPlace(loaded, keys, i);
    assert Recency(q) by { RunKeeps(states, events, n); }
  }

  lemma {:induction false} KeptIsUnscheduled(states: seq<State>, events: seq<Event>, p: nat, n: nat, i: nat)
    requires LoadedAt(states, events, p, n) && i < |Preloaded(events[p].file)|
    requires Preloaded(events[p].file)[i] != ""
    requires Kept(Preloaded(events[p].file), i, states[n].q.ledger.finishes)
    ensures Preloaded(events[p].file)[i] !in states[n].q.ledger.scheduled
  {
    if n == p + 1 {
      JustLoaded(states, events, p);
    } else {
      FinishesRise(states, events, p, n);
      KeptIsUnscheduled(states, events, p, n - 1, i);
      StaysUnscheduled(states, events, p, n, i);
    }
  }

  lemma FinishesRise(states: seq<State>, events: seq<Event>, p: nat, n: nat)
    requires LoadedAt(states, events, p, n) && p + 1 < n
    ensures states[n - 1].q.ledger.finishes <= states[n].q.ledger.finishes
  {
    RunEventAges(states, events, p, n, "");
    FinishesGrow(states[n - 1].q, states[n].q);
  }

  lemma StaysUnscheduled(states: seq<State>, events: seq<Event>, p: nat, n: nat, i: nat)
    requires LoadedAt(states, events, p, n) && p + 1 < n && i < |Preloaded(events[p].file)|
    requires Preloaded(events[p].file)[i] != ""
    requires Preloaded(events[p].file)[i] !in states[n - 1].q.ledger.scheduled
    requires Kept(Preloaded(events[p].file), i, states[n - 1].q.ledger.finishes)
    ensures Preloaded(events[p].file)[i] !in states[n].q.ledger.scheduled
  {
    var key := Preloaded(events[p].file)[i];
    RunEventAges(states, events, p, n, key);
    UnscheduledByPlace(states, events, p, n - 1, i);
    BlockedIsNotScheduled(states[n - 1], events[n - 1], states[n], key);
  }

  lemma BlockedIsNotScheduled(s: State, e: Event, t: State, key: string)
    requires key != "" && key in s.q.recent
    ensures !Schedules(s, e, t, key)
  {
  }

  /** The exact guard against repeating loaded work, in every run between `preload` and `resume`. The key at place
      `i` of the loaded ones, of a held item or a finished one, is remembered up to the finish that counts its place
      past 5000: until then it is not scheduled, and a replay of it is a duplicate. From then on it is not: the next
      submission of it is no duplicate, and is scheduled unless its album has an item already or the queue is full. */
  lemma LoadedKeyIsBlockedWhen(states: seq<State>, events: seq<Event>, p: nat, n: nat, i: nat,
                               item: PendingItem, album: Option<Album>)
    requires LoadedAt(states, events, p, n) && i < |Preloaded(events[p].file)|
    requires item.key == Preloaded(events[p].file)[i] && item.key != ""
    ensures var kept := Kept(Preloaded(events[p].file), i, states[n].q.ledger.finishes);
      && (kept ==> item.key !in states[n].q.ledger.scheduled)
      && (item.key !in states[n].q.ledger.scheduled ==> (SubmitAnswer(states[n], item, album) == Duplicate <==> kept))
  {
    if Kept(Preloaded(events[p].file), i, states[n].q.ledger.finishes) { KeptIsUnscheduled(states, events, p, n, i); }
    if item.key !in states[n].q.ledger.scheduled { UnscheduledByPlace(states, events, p, n, i); }
  }

  lemma {:induction false} WasLoaded(states: seq<State>, events: seq<Event>, n: nat) returns (p: nat)
    requires IsRun(states, events) && n < |states| && states[n].held != []
    ensures LoadedAt(states, events, p, n) && states[n].held == LoadedItems(events[p].file)
  {
    assert states[0].held == [];
    HeldMoves(states, events, n);
    if events[n - 1].Preload? { p := n - 1; } else { p := WasLoaded(states, events, n - 1); }
  }

  lemma HeldMoves(states: seq<State>, events: seq<Event>, n: nat)
    requires IsRun(states, events) && 0 < n < |states|
    ensures var e := events[n - 1];
      states[n].held == if e.Preload? then LoadedItems(e.file) else if e.Resume? then [] else states[n - 1].held
  {
    var s, e, t := states[n - 1], events[n - 1], states[n];
    assert Takes(s, e, t) by { RunStep(states, events, n); }
    if OfWorker(e) { assert OneCall(s, NextWorker(s, e)); }
  }

  lemma HeldKeyPlace(file: File, j: nat) returns (i: nat)
    requires j < |LoadedItems(file)| && LoadedItems(file)[j].Key() != ""
    ensures i < |Preloaded(file)| && Preloaded(file)[i] == LoadedItems(file)[j].Key()
  {
    KeysOfMembers(LoadedItems(file));
    WithKeysDistinct([], LoadedRecent(file));
    WithKeysDistinct(WithKeys([], LoadedRecent(file)), KeysOf(LoadedItems(file)));
    i :| 0 <= i < |Preloaded(file)| && Preloaded(file)[i] == LoadedItems(file)[j].Key();
  }

  /** While fewer than 5000 keys are remembered none has been evicted: a held item blocks its key, a replay is a
      duplicate, and `resume` puts back only work that was not scheduled since the start. */
  lemma ResumeRepeatsNothing(states: seq<State>, events: seq<Event>, n: nat, j: nat,
                             item: PendingItem, album: Option<Album>)
    requires IsRun(states, events) && n < |states| && j < |states[n].held|
    requires |states[n].q.recent| < RECENT_KEYS
    requires states[n].held[j].Key() != "" && item.key == states[n].held[j].Key()
    ensures SubmitAnswer(states[n], item, album) == Duplicate
    ensures states[n].held[j].Key() !in states[n].q.ledger.scheduled
  {
    var p := WasLoaded(states, events, n);
    var i := HeldKeyPlace(events[p].file, j);
    LoadedKeysAge(states, events, p, n);
    FewAreKept(Preloaded(events[p].file), states[n].q, i);
    LoadedKeyIsBlockedWhen(states, events, p, n, i, item, album);
  }

  lemma FewAreKept(loaded: seq<string>, q: Queue, i: nat)
    requires Ages(EMPTY.(recent := loaded), q) && |q.recent| < RECENT_KEYS && i < |loaded|
    ensures Kept(loaded, i, q.ledger.finishes)
  {
    var keys :| Pushed(EMPTY.(recent := loaded), keys, q);
  }

  // ---- a run that repeats held work ------------------------------------------------------------------

  function Name(i: nat): string {
    seq(i + 1, _ => 'k')
  }

  /** An item that is past its expiry. */
  function Lapsed(id: string, key: string): PendingItem {
    PendingItem(id, "job", React, 0, 1, 1, 0.0, 0.0, Some(0.0), false, None, Phase.Start, 0, 0, None,
                Cancel, false, Payload(false, false, CountViews, false, 0.0, "", 0), key, "")
  }

  /** As many held items as keys are remembered, each under its own key. */
  ghost function Crowd(): (held: seq<Record>)
    ensures |held| == RECENT_KEYS
    ensures forall i :: 0 <= i < |held| ==> held[i] == Runnable(Lapsed(Name(i), Name(i)))
  {
    seq(RECENT_KEYS, (i: int) requires 0 <= i => Runnable(Lapsed(Name(i), Name(i))))
  }

  /** Another item, and the replay of what the first held item is for. */
  function Other(): PendingItem {
    Lapsed("o", "o")
  }

  function Replay(): PendingItem {
    Lapsed("r", Name(0))
  }

  lemma {:induction false} CrowdKeys(n: nat)
    requires n <= RECENT_KEYS
    ensures KeysOf(Crowd()[..n]) == seq(n, (i: int) requires 0 <= i => Name(i))
  {
    if n > 0 {
      CrowdKeys(n - 1);
      KeysOfLast(Crowd()[..n], Crowd()[..n - 1], Crowd()[n - 1]);
    }
  }

  lemma CrowdIsBlocked()
    ensures Preloaded(File(Crowd(), [])) == seq(RECENT_KEYS, (i: int) requires 0 <= i => Name(i))
    ensures Distinct(Preloaded(File(Crowd(), [])))
  {
    var keys := seq(RECENT_KEYS, (i: int) requires 0 <= i => Name(i));
    assert Crowd()[..RECENT_KEYS] == Crowd();
    CrowdKeys(RECENT_KEYS);
    forall i, j | 0 <= i < j < |keys| ensures keys[i] != keys[j] {
      assert |keys[i]| == i + 1 && |keys[j]| == j + 1;
    }
    WithKeysOfNew([], keys);
    assert [] + keys == keys;
  }

  /** The names of the crowd begin with another letter than those of the two items. */
  lemma CrowdSpares(id: string)
    requires id == "o" || id == "r"
    ensures id !in Preloaded(File(Crowd(), [])) && id !in IdsOf(Crowd())
  {
    CrowdIsBlocked();
    var recent := Preloaded(File(Crowd(), []));
    forall i | 0 <= i < RECENT_KEYS ensures recent[i] != id && Crowd()[i].Id() != id {
      assert recent[i] == Name(i) && Name(i)[0] == 'k' && id[0] != 'k';
    }
  }

  lemma CrowdIsDistinct()
    ensures forall i, j :: 0 <= i < j < |Crowd()| ==> Crowd()[i].Id() != Crowd()[j].Id()
  {
    forall i, j | 0 <= i < j < |Crowd()| ensures Crowd()[i].Id() != Crowd()[j].Id() {
      assert |Crowd()[i].Id()| == i + 1 && |Crowd()[j].Id()| == j + 1;
    }
  }

  /** Nothing is pending and nothing runs; held items wait for `resume`. */
  ghost predicate Quiet(s: State) {
    && s.loaded && !s.resumed && !s.closed && s.q.items == map[] && s.q.keys == map[] && s.q.running == {}
    && React in s.pcs && s.pcs[React].Idle? && React in s.pacers && s.now == 0.0 && s.held == Crowd()
  }

  /** The item was scheduled and has finished; nothing else is left of it. */
  ghost predicate Passed(s: State, item: PendingItem, t: State) {
    && Quiet(t) && t.q.recent == Remembered(s.q.recent, item.key) && t.q.ledger.used == s.q.ledger.used + {item.id}
    && item.key in t.q.ledger.scheduled
    && item.key in t.q.ledger.finishedAt && t.q.ledger.finishedAt[item.key] == t.q.ledger.finishes
  }

  lemma SubmitPasses(s: State, item: PendingItem) returns (m: State)
    requires Quiet(s) && item.key != "" && item.key !in s.q.recent
    requires item.id !in s.q.ledger.used && item.id !in IdsOf(Crowd())
    ensures Takes(s, Submit(item, None, false), m) && m == s.(q := Inserted(s.q, item))
    ensures SubmitAnswer(s, item, None) == Scheduled
  {
    m := s.(q := Inserted(s.q, item));
  }

  lemma ExpirePasses(s: State, item: PendingItem)
    requires Quiet(s) && item.action == React && item.dueAt <= 0.0 && item.expiresAt == Some(0.0)
    ensures var m := s.(q := Inserted(s.q, item));
      Takes(m, Step(React, item.id, Expire), m.(q := Finished(m.q, item, Expired)))
  {
    var m := s.(q := Inserted(s.q, item));
    assert m.q.items == map[item.id := item];
    ExpiresNext(m, item);
  }

  lemma ExpiresNext(m: State, item: PendingItem)
    requires m.q.items == map[item.id := item] && m.q.running == {} && !m.closed && m.now == 0.0
    requires React in m.pcs && m.pcs[React].Idle? && React in m.pacers
    requires item.action == React && item.dueAt <= 0.0 && item.expiresAt == Some(0.0)
    ensures EnabledStep(m, React, item.id, Expire)
  {
    assert IsPeek(m.q, React, item.id);
  }

  lemma ItemPasses(s: State, item: PendingItem) returns (m: State, t: State)
    requires Quiet(s) && item.key != "" && item.key !in s.q.recent
    requires item.action == React && item.dueAt <= 0.0 && item.expiresAt == Some(0.0)
    requires item.id !in s.q.ledger.used && item.id !in IdsOf(Crowd())
    ensures Takes(s, Submit(item, None, false), m) && SubmitAnswer(s, item, None) == Scheduled
    ensures Takes(m, Step(React, item.id, Expire), t) && Passed(s, item, t)
  {
    m := SubmitPasses(s, item);
    ExpirePasses(s, item);
    t := m.(q := Finished(m.q, item, Expired));
  }

  lemma LoadingCrowd() returns (t: State)
    ensures Takes(Init(), Preload(File(Crowd(), [])), t) && Quiet(t)
    ensures t.q.recent == Preloaded(File(Crowd(), [])) && t.q.ledger.used == {}
  {
    CrowdIsDistinct();
    t := NextOutside(Init(), Preload(File(Crowd(), [])));
  }

  /** The first of the crowd is put back: neither it nor its key is live. */
  lemma FirstComesBack(q: Queue)
    requires q.items == map[] && q.keys == map[]
    ensures var r := Resumed(q, Crowd(), {"job"});
      Name(0) in r.items && r.items[Name(0)] == Lapsed(Name(0), Name(0))
  {
    var first, others := Crowd()[..1], Crowd()[1..];
    assert first + others == Crowd() && first[..0] == [];
    ResumedAppend(q, first, others, {"job"});
    var m := Resumed(q, first, {"job"});
    assert m == ResumedOne(Resumed(q, first[..0], {"job"}), Crowd()[0], {"job"});
    RestoredParts(q, Crowd()[0].item);
    forall i | 0 <= i < |others| ensures others[i].Id() != Name(0) {
      assert |others[i].Id()| == i + 2;
    }
    ResumedSparesOthers(m, others, {"job"}, Name(0));
  }

  /** A run goes on with an item that expires at once. */
  lemma PassesInRun(states: seq<State>, events: seq<Event>, item: PendingItem)
    returns (states': seq<State>, events': seq<Event>)
    requires IsRun(states, events)
    requires var s := states[|events|]; Quiet(s) && item.key !in s.q.recent && item.id !in s.q.ledger.used
    requires item == Lapsed(item.id, item.key) && item.key != "" && item.id !in IdsOf(Crowd())
    ensures IsRun(states', events') && states <= states'
    ensures events' == events + [Submit(item, None, false), Step(React, item.id, Expire)]
    ensures SubmitAnswer(states[|events|], item, None) == Scheduled
    ensures Passed(states[|events|], item, states'[|events'|])
  {
    var s := states[|events|];
    var m, t := ItemPasses(s, item);
    var submit, step := Submit(item, None, false), Step(React, item.id, Expire);
    TwoStepsMore(states, events, submit, m, step, t);
    states', events' := states + [m, t], events + [submit, step];
  }

  lemma CrowdInRun() returns (states: seq<State>, events: seq<Event>)
    ensures IsRun(states, events) && events == [Preload(File(Crowd(), []))] && Quiet(states[1])
    ensures states[1].q.recent == Preloaded(File(Crowd(), [])) && states[1].q.ledger.used == {}
  {
    var t := LoadingCrowd();
    states, events := [Init(), t], [Preload(File(Crowd(), []))];
  }

  lemma ResumeInRun(states: seq<State>, events: seq<Event>) returns (t: State)
    requires IsRun(states, events) && Quiet(states[|events|])
    ensures IsRun(states + [t], events + [Resume({"job"})])
    ensures Name(0) in t.q.items && t.q.items[Name(0)] == Lapsed(Name(0), Name(0))
  {
    var s := states[|events|];
    t := NextOutside(s, Resume({"job"}));
    FirstComesBack(s.q);
    OneStepMore(states, events, Resume({"job"}), t);
  }

  /** Loaded, then another item that is scheduled and expires: it pushes the first held key out. */
  lemma EvictionInRun() returns (states: seq<State>, events: seq<Event>)
    ensures IsRun(states, events)
    ensures events == [Preload(File(Crowd(), []))] + [Submit(Other(), None, false), Step(React, "o", Expire)]
    ensures Quiet(states[3]) && Name(0) !in states[3].q.recent && states[3].q.ledger.used == {"o"}
  {
    CrowdSpares("o");
    var before, first := CrowdInRun();
    states, events := PassesInRun(before, first, Other());
    OneFinishEvicts(before[1].q.recent, "o");
  }

  /** Loaded, then another item and the replay of the first held key: both are scheduled and expire at once. */
  lemma ReplayInRun() returns (states: seq<State>, events: seq<Event>)
    ensures IsRun(states, events)
    ensures events == [Preload(File(Crowd(), []))]
                      + [Submit(Other(), None, false), Step(React, "o", Expire)]
                      + [Submit(Replay(), None, false), Step(React, "r", Expire)]
    ensures Quiet(states[5]) && SubmitAnswer(states[3], Replay(), None) == Scheduled
    ensures var l := states[5].q.ledger;
      Replay().key in l.scheduled && Replay().key in l.finishedAt && l.finishedAt[Replay().key] == l.finishes
  {
    CrowdSpares("r");
    var before, first := EvictionInRun();
    states, events := PassesInRun(before, first, Replay());
  }

  /** Held work is repeated in a real run. A file holds 5000 items. After it is loaded one other item is submitted
      and expires: its finish pushes the first held key out. A replay of that key is then accepted, and finishes.
      And `resume` puts the held item back all the same, under the key that finished last of all. */
  lemma EvictedHeldKeyIsRepeated() returns (states: seq<State>, events: seq<Event>)
    ensures IsRun(states, events)
    ensures events == [Preload(File(Crowd(), []))]
                      + [Submit(Other(), None, false), Step(React, "o", Expire)]
                      + [Submit(Replay(), None, false), Step(React, "r", Expire)]
                      + [Resume({"job"})]
    ensures SubmitAnswer(states[3], Replay(), None) == Scheduled
    ensures var l := states[5].q.ledger;
      Replay().key in l.scheduled && Replay().key in l.finishedAt && l.finishedAt[Replay().key] == l.finishes
    ensures Name(0) in states[6].q.items && states[6].q.items[Name(0)].key == Replay().key
  {
    var before, first := ReplayInRun();
    var t := ResumeInRun(before, first);
    states, events := before + [t], first + [Resume({"job"})];
  }

  /** One finish under a new key pushes the first of the crowd out. */
  lemma OneFinishEvicts(recent: seq<string>, key: string)
    requires recent == Preloaded(File(Crowd(), [])) && key != "" && key !in recent
    ensures Name(0) !in Remembered(recent, key)
  {
    CrowdIsBlocked();
    assert recent[0] == Name(0);
    EvictedIsGone(recent, [key], 0);
  }
}
