/** When a worker starts an item, and what it does with one it may not start: every condition written out for the
    kinds and fields it depends on. */
module Guards {
  import opened Basics
  import opened Items
  import opened Machine
  import opened Safety
  import Deliveries
  import Pacing

  // ---- the conditions ------------------------------------------------------------------------------

  predicate IsExpired(item: PendingItem, now: real) {
    item.expiresAt.Some? && item.expiresAt.value <= now
  }

  /** Quiet hours are in force for the item; they hold everything but a forward. */
  predicate IsQuiet(item: PendingItem, now: real) {
    item.action != Forward && item.quietHours.Some? && item.quietHours.value.Contains(now)
  }

  predicate Startable(item: PendingItem, now: real) {
    item.dueAt <= now && !IsExpired(item, now) && !IsQuiet(item, now)
  }

  lemma MayStartIs(item: PendingItem, now: real)
    ensures MayStart(item, now) <==> Startable(item, now)
    ensures PastExpiry(item, now) <==> IsExpired(item, now)
    ensures QuietUntil(item, now) == if IsQuiet(item, now) then Some(item.quietHours.value.WindowEnd(now)) else None
  {
  }

  /** Reads of one place, or views of one chat in one mode, and both dry runs or neither. */
  predicate GoTogether(a: PendingItem, b: PendingItem) {
    && a.action == b.action && a.dryRun == b.dryRun
    && match a.action
       case Read => a.chatId == b.chatId && a.topicId == b.topicId
       case View => a.chatId == b.chatId && a.payload.mode == b.payload.mode
       case _ => false
  }

  lemma TogetherIs(a: PendingItem, b: PendingItem)
    requires a.action == b.action
    ensures GoTogether(a, b) <==> BatchKeyOf(a) == BatchKeyOf(b) && BatchKeyOf(a) != None
    ensures BatchKeyOf(a) == None <==> a.action != Read && a.action != View
  {
  }

  // ---- what was started --------------------------------------------------------------------------------

  /** Each item of an execution was due, unexpired and outside its quiet hours; and it is the head alone, or items
      that go together with the head, at most a hundred of them. */
  ghost predicate Guarded(st: Startup) {
    && st.head in st.batch && |st.batch| <= 100
    && (forall b :: b in st.batch ==> Startable(b, st.at))
    && (forall b :: b in st.batch && b != st.head ==> GoTogether(b, st.head))
    && (st.head.action != Read && st.head.action != View ==> st.batch == [st.head])
  }

  lemma StartedIsGuarded(s: State, e: Event, st: Startup)
    requires StartOk(st) && Deliveries.StartedBy(s, e, st)
    ensures Guarded(st)
  {
    forall b | b in st.batch ensures Startable(b, st.at) && (b != st.head ==> GoTogether(b, st.head)) {
      var i :| 0 <= i < |st.batch| && st.batch[i] == b;
      MayStartIs(b, st.at);
      TogetherIs(b, st.head);
      KeylessIsAlone(s, e, st);
    }
    KeylessIsAlone(s, e, st);
  }

  lemma KeylessIsAlone(s: State, e: Event, st: Startup)
    requires Deliveries.StartedBy(s, e, st)
    ensures st.head.action != Read && st.head.action != View ==> st.batch == [st.head]
  {
    TogetherIs(st.head, st.head);
  }

  /** In every run, every execution: nothing is started before it is due, past its expiry or, a forward apart, within
      its quiet hours, also when they reach over midnight. */
  lemma StartsAreGuarded(states: seq<State>, events: seq<Event>, n: nat, i: nat)
    requires IsRun(states, events) && n < |states| && i < |states[n].starts|
    ensures Guarded(states[n].starts[i])
  {
    var k := Deliveries.StartsAreNextDue(states, events, n, i);
    assert StartsOk(states[n]) by { RunKeeps(states, events, n); }
    StartedIsGuarded(states[k], events[k], states[n].starts[i]);
  }

  /** And nothing that could go along is left behind, unless the batch is full of what is due no later. */
  ghost predicate TakesAll(s: State, head: string, batch: seq<string>) {
    head in s.q.items && head in batch
    && forall id :: id in s.q.items && id !in s.q.running && id !in batch
                    && GoTogether(s.q.items[id], s.q.items[head]) && Startable(s.q.items[id], s.now) ==>
         && |batch| == 100
         && forall x :: x in batch && x != head ==> x in s.q.items && s.q.items[x].dueAt <= s.q.items[id].dueAt
  }

  lemma BatchTakesAll(s: State, head: string, batch: seq<string>)
    requires IsBatch(s.q, head, batch, s.now)
    ensures TakesAll(s, head, batch)
  {
    var first := s.q.items[head];
    forall id | id in s.q.items && id !in s.q.running && id !in batch
                && GoTogether(s.q.items[id], first) && Startable(s.q.items[id], s.now)
      ensures |batch| == 100
      ensures forall x :: x in batch && x != head ==> x in s.q.items && s.q.items[x].dueAt <= s.q.items[id].dueAt
    {
      MayStartIs(s.q.items[id], s.now);
      TogetherIs(s.q.items[id], first);
      assert Joins(s.q, first, s.now, id);
      forall x | x in batch ensures x in s.q.items { assert Joins(s.q, first, s.now, x); }
    }
  }

  // ---- what a step decides ----------------------------------------------------------------------------------

  /** Given up, held to the end of its quiet hours or up to five minutes past it, run dry, made to wait for the pacer,
      or run: in this order of precedence, and each exactly when its condition says so. */
  ghost predicate Decides(s: State, kind: Kind, head: string, choice: Choice)
    requires kind in s.pacers && head in s.q.items
  {
    var item, pacer := s.q.items[head], Pacing.Looked(s.pacers[kind], s.now);
    && Deliveries.IsNext(s.q, kind, head) && item.dueAt <= s.now
    && (choice.Expire? <==> IsExpired(item, s.now))
    && (choice.Hold? <==> !IsExpired(item, s.now) && IsQuiet(item, s.now))
    && (choice.Hold? ==>
          var end := item.quietHours.value.WindowEnd(s.now); end <= choice.due <= end + 300.0)
    && (choice.RunDry? <==> Startable(item, s.now) && item.dryRun)
    && (choice.TooSoon? <==> Startable(item, s.now) && !item.dryRun && !Pacing.OpenBy(pacer, s.now))
    && (choice.Run? <==> Startable(item, s.now) && !item.dryRun && Pacing.OpenBy(pacer, s.now))
    && (choice.Run? || choice.RunDry? ==> TakesAll(s, head, choice.batch))
  }

  lemma OpenWhenNoWait(p: Pacing.PacerState, now: real)
    requires Pacing.Valid(p) && p.log.seen <= now
    ensures var q := Pacing.Looked(p, now); Pacing.Wait(q, now) <= 0.0 <==> Pacing.OpenBy(q, now)
  {
    Pacing.LookedKeeps(p, now);
    if Pacing.Wait(Pacing.Looked(p, now), now) <= 0.0 { Pacing.ZeroWaitIsOpen(p, now, now); }
  }

  lemma StepDecides(s: State, kind: Kind, head: string, choice: Choice)
    requires PacersOk(s) && EnabledStep(s, kind, head, choice)
    ensures Decides(s, kind, head, choice)
  {
    MayStartIs(s.q.items[head], s.now);
    OpenWhenNoWait(s.pacers[kind], s.now);
    if choice.Run? || choice.RunDry? { BatchTakesAll(s, head, choice.batch); }
  }

  /** In every run, every step decides as the conditions say. */
  lemma StepsDecide(states: seq<State>, events: seq<Event>, n: nat)
    requires IsRun(states, events) && n < |events| && events[n].Step?
    ensures events[n].kind in states[n].pacers && events[n].head in states[n].q.items
    ensures Decides(states[n], events[n].kind, events[n].head, events[n].choice)
  {
    var s, e := states[n], events[n];
    assert PacersOk(s) by { RunKeeps(states, events, n); }
    assert Takes(s, e, states[n + 1]) by { RunStep(states, events, n + 1); }
    StepDecides(s, e.kind, e.head, e.choice);
  }

  // ---- closing --------------------------------------------------------------------------------------------

  lemma {:induction false} StaysClosed(states: seq<State>, events: seq<Event>, m: nat, n: nat)
    requires IsRun(states, events) && m <= n < |states| && states[m].closed
    ensures states[n].closed
  {
    if m < n {
      StaysClosed(states, events, m, n - 1);
      var s, e, t := states[n - 1], events[n - 1], states[n];
      assert Takes(s, e, t) by { RunStep(states, events, n); }
      if OfWorker(e) { assert OneCall(s, NextWorker(s, e)); }
    }
  }

  /** In every run: once the scheduler is closed no step is taken, so nothing is started any more. */
  lemma ClosedStartsNothing(states: seq<State>, events: seq<Event>, m: nat, n: nat)
    requires IsRun(states, events) && m < n < |events| && events[m].Close?
    ensures !events[n].Step?
  {
    RunCloses(states, events, m);
    StaysClosed(states, events, m + 1, n);
    RunStepIsOpen(states, events, n);
  }

  lemma RunCloses(states: seq<State>, events: seq<Event>, m: nat)
    requires IsRun(states, events) && m < |events| && events[m].Close?
    ensures states[m + 1].closed
  {
    assert Takes(states[m], events[m], states[m + 1]) by { RunStep(states, events, m + 1); }
  }

  lemma RunStepIsOpen(states: seq<State>, events: seq<Event>, n: nat)
    requires IsRun(states, events) && n < |events|
    ensures events[n].Step? ==> !states[n].closed
  {
    assert Takes(states[n], events[n], states[n + 1]) by { RunStep(states, events, n + 1); }
  }
}
