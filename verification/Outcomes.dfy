/** How an execution came out, and what became of its items: which are put back and until when, which have left and
    how. The conditions are written out; nothing here is said in terms of the steps that bring it about. */
module Outcomes {
  import opened Basics
  import opened Items
  import opened Queues
  import opened Machine
  import opened Safety
  import Deliveries
  import Executions

  // ---- one item of a settled batch ----------------------------------------------------------------

  ghost predicate Fated(item: PendingItem, id: string, fate: Fate, verdict: Verdict, r: Queue) {
    match fate
    case Leaves(outcome) =>
      id !in r.items && id in r.ledger.ended && r.ledger.ended[id] == End(Hit(item, verdict), outcome)
    case Stays(at) => id in r.items && id !in r.running && r.items[id] == Hit(item, verdict).(dueAt := at)
  }

  lemma OneIsFated(q: Queue, id: string, verdict: Verdict, limit: nat, due: real)
    requires id in q.items && q.items[id].id == id
    ensures Fated(q.items[id], id, FateOf(Hit(q.items[id], verdict), verdict, id in q.cancelled, limit, due), verdict,
                  SettledOne(q, id, verdict, limit, due))
  {
    var hit := Hit(q.items[id], verdict);
    match FateOf(hit, verdict, id in q.cancelled, limit, due)
    case Leaves(outcome) => FinishedEffect(q, hit, outcome);
    case Stays(at) =>
  }

  lemma OthersStayFated(q: Queue, id: string, verdict: Verdict, limit: nat, due: real, item: PendingItem, x: string,
                        fate: Fate)
    requires id in q.items && q.items[id].id == id && x != id && Fated(item, x, fate, verdict, q)
    ensures Fated(item, x, fate, verdict, SettledOne(q, id, verdict, limit, due))
  {
    var hit := Hit(q.items[id], verdict);
    match FateOf(hit, verdict, id in q.cancelled, limit, due)
    case Leaves(outcome) => FinishedEffect(q, hit, outcome);
    case Stays(at) =>
  }

  lemma {:induction false} EachIsFated(q: Queue, ids: seq<string>, verdict: Verdict, limit: nat, dues: seq<real>, i: nat)
    requires QueueInv(q) && Distinct(ids) && SetOf(ids) <= q.running && |dues| == |ids|
    requires limit <= PATIENT_RETRIES && i < |ids|
    requires verdict.Later? ==> forall x :: x in ids ==> x in q.items && Paid(q, q.items[x])
    ensures ids[i] in q.items
    ensures Fated(q.items[ids[i]], ids[i],
                  FateOf(Hit(q.items[ids[i]], verdict), verdict, ids[i] in q.cancelled, limit, dues[i]), verdict,
                  Settled(q, ids, verdict, limit, dues))
  {
    var n := |ids| - 1;
    var front, last := ids[..n], ids[n];
    var m := Settled(q, front, verdict, limit, dues[..n]);
    Executions.LastIsUntouched(q, ids, verdict, limit, dues);
    if i == n {
      OneIsFated(m, last, verdict, limit, dues[n]);
    } else {
      assert SetOf(front) <= q.running by { SetOfPrefix(ids); }
      EachIsFated(q, front, verdict, limit, dues[..n], i);
      OthersStayFated(m, last, verdict, limit, dues[n], q.items[ids[i]], ids[i],
                      FateOf(Hit(q.items[ids[i]], verdict), verdict, ids[i] in q.cancelled, limit, dues[i]));
    }
  }

  lemma BatchIsFated(s: State, kind: Kind, verdict: Verdict, dues: seq<real>, i: nat)
    requires Inv(s) && MaySettle(s, kind, verdict) && |dues| == |s.pcs[kind].Batch()| && i < |dues|
    ensures var id, limit := s.pcs[kind].batch[i], RetryLimit(s, kind);
      && id in s.q.items
      && Fated(s.q.items[id], id,
               FateOf(Hit(s.q.items[id], verdict), verdict, id in s.q.cancelled, limit, dues[i]), verdict,
               Settled(s.q, s.pcs[kind].batch, verdict, limit, dues))
  {
    Executions.BatchMaySettle(s, kind, verdict);
    EachIsFated(s.q, s.pcs[kind].batch, verdict, RetryLimit(s, kind), dues, i);
  }

  // ---- the same, written out ----------------------------------------------------------------------------

  /** Out of the queue for good, with this outcome; with the item as it is on record. */
  ghost predicate Gone(q: Queue, id: string, item: PendingItem, outcome: Outcome) {
    id !in q.items && id in q.ledger.ended && q.ledger.ended[id] == End(item, outcome)
  }

  /** Pending again: as it was but for what `item` says, and due between these moments. */
  ghost predicate Back(q: Queue, id: string, item: PendingItem, earliest: real, latest: real) {
    && id in q.items && id !in q.running
    && q.items[id] == item.(dueAt := q.items[id].dueAt)
    && earliest <= q.items[id].dueAt <= latest
  }

  /** No expiry is configured for the kind, or, where nothing is, by default. */
  predicate NeverExpires(s: State, kind: Kind) {
    if kind in s.expire then s.expire[kind] == None else kind == Read || kind == Forward
  }

  /** How many attempts an item of the kind has. */
  function Tries(s: State, kind: Kind): nat {
    if NeverExpires(s, kind) then 12 else 3
  }

  /** How long to wait after the attempts made before this one. */
  function PauseAfter(attempts: nat): real {
    if attempts == 0 then 5.0 else if attempts == 1 then 30.0 else if attempts == 2 then 120.0 else 600.0
  }

  /** After a flood wait of `w` seconds: put back up to ten times, one to five seconds past the wait. */
  ghost predicate AfterFlood(s: State, item: PendingItem, w: real, t: State) {
    var hit := item.(floods := item.floods + 1, lastError := "RATE_LIMITED");
    if item.id in s.q.cancelled then Gone(t.q, item.id, hit, Superseded)
    else if item.floods < 10 then Back(t.q, item.id, hit, s.now + w + 1.0, s.now + w + 5.0)
    else Gone(t.q, item.id, hit, Errors)
  }

  /** After an error that may pass: put back within the tries of its kind, 1 to 1.5 times the pause from now. */
  ghost predicate AfterError(s: State, kind: Kind, item: PendingItem, t: State) {
    var hit, pause := item.(attempts := item.attempts + 1, lastError := "RETRYABLE"), PauseAfter(item.attempts);
    if item.id in s.q.cancelled then Gone(t.q, item.id, hit, Superseded)
    else if item.attempts + 1 <= Tries(s, kind) then Back(t.q, item.id, hit, s.now + pause, s.now + pause * 1.5)
    else Gone(t.q, item.id, hit, Errors)
  }

  /** After anything else. */
  ghost predicate AfterVerdict(s: State, verdict: Verdict, item: PendingItem, t: State) {
    var fatal := item.(attempts := item.attempts + 1, lastError := "FATAL");
    if item.id in s.q.cancelled then Gone(t.q, item.id, if verdict.Fatal? then fatal else item, Superseded)
    else
      match verdict
      case Ok => Gone(t.q, item.id, item, Done)
      case NothingToDo => Gone(t.q, item.id, item, Skipped)
      case Fatal => Gone(t.q, item.id, fatal, Errors)
      case Later(at) => Back(t.q, item.id, item, at, at)
      case _ => false
  }

  ghost predicate CameOut(s: State, kind: Kind, verdict: Verdict, item: PendingItem, t: State) {
    match verdict
    case Flood(w) => AfterFlood(s, item, w, t)
    case Transient => AfterError(s, kind, item, t)
    case _ => AfterVerdict(s, verdict, item, t)
  }

  lemma FateIsCameOut(s: State, kind: Kind, verdict: Verdict, item: PendingItem, due: real, t: State)
    requires DueDrawn(verdict, item.attempts + 1, s.now, due)
    requires Fated(item, item.id,
                   FateOf(Hit(item, verdict), verdict, item.id in s.q.cancelled, RetryLimit(s, kind), due),
                   verdict, t.q)
    ensures CameOut(s, kind, verdict, item, t)
  {
  }

  lemma ItemCameOut(s: State, kind: Kind, verdict: Verdict, dues: seq<real>, i: nat, t: State)
    requires Inv(s) && MaySettle(s, kind, verdict) && |dues| == |s.pcs[kind].Batch()| && i < |dues|
    requires t.q == Settled(s.q, s.pcs[kind].batch, verdict, RetryLimit(s, kind), dues)
    requires DuesDrawn(s.q, s.pcs[kind].batch, verdict, s.now, dues)
    ensures s.pcs[kind].batch[i] in s.q.items
    ensures CameOut(s, kind, verdict, s.q.items[s.pcs[kind].batch[i]], t)
  {
    var id, limit := s.pcs[kind].batch[i], RetryLimit(s, kind);
    assert id in s.q.items && s.q.items[id].id == id
        && Fated(s.q.items[id], id,
                 FateOf(Hit(s.q.items[id], verdict), verdict, id in s.q.cancelled, limit, dues[i]), verdict, t.q) by {
      BatchIsFated(s, kind, verdict, dues, i);
    }
    FateIsCameOut(s, kind, verdict, s.q.items[id], dues[i], t);
  }

  lemma SettleCameOut(s: State, kind: Kind, verdict: Verdict, dues: seq<real>, id: string)
    requires Inv(s) && EnabledWorker(s, Settle(kind, verdict, dues)) && id in s.pcs[kind].batch
    ensures id in s.q.items && s.q.items[id].id == id
    ensures CameOut(s, kind, verdict, s.q.items[id], NextWorker(s, Settle(kind, verdict, dues)))
  {
    var i :| 0 <= i < |s.pcs[kind].batch| && s.pcs[kind].batch[i] == id;
    ItemCameOut(s, kind, verdict, dues, i, NextWorker(s, Settle(kind, verdict, dues)));
  }

  /** In every run: what becomes of each item of a batch when its execution is settled. A flood puts it back up to ten
      times, an error that may pass up to twelve or three times, each until a moment within bounds; anything else ends
      it as done, skipped or an error, and a reply that has shown typing is put back until typing ends. An item that
      was cancelled meanwhile leaves as superseded, however the execution came out. */
  lemma SettlingIsExact(states: seq<State>, events: seq<Event>, n: nat, id: string)
    requires IsRun(states, events) && n < |events| && events[n].Settle?
    requires events[n].kind in states[n].pcs && id in states[n].pcs[events[n].kind].Batch()
    ensures id in states[n].q.items && states[n].q.items[id].id == id
    ensures CameOut(states[n], events[n].kind, events[n].verdict, states[n].q.items[id], states[n + 1])
  {
    var s, e, t := states[n], events[n], states[n + 1];
    assert Inv(s) by { RunKeeps(states, events, n); }
    assert Takes(s, e, t) by { RunStep(states, events, n + 1); }
    SettleCameOut(s, e.kind, e.verdict, e.dues, id);
  }

  // ---- what leaves without an execution -------------------------------------------------------------------

  lemma DryBatchIsDone(q: Queue, batch: seq<string>, limit: nat, dues: seq<real>, i: nat)
    requires QueueInv(q) && Distinct(batch) && SetOf(batch) <= q.items.Keys - q.running && |dues| == |batch|
    requires limit <= PATIENT_RETRIES && i < |batch|
    ensures batch[i] in q.items
    ensures Gone(Settled(AllLaunched(q, batch), batch, Ok, limit, dues), batch[i], q.items[batch[i]],
                 if batch[i] in q.cancelled then Superseded else Done)
  {
    assert batch[i] in SetOf(batch);
    AllLaunchedKeeps(q, batch);
    EachIsFated(AllLaunched(q, batch), batch, Ok, limit, dues, i);
  }

  lemma DryRunIsDone(s: State, kind: Kind, head: string, batch: seq<string>, dues: seq<real>, id: string)
    requires Inv(s) && EnabledWorker(s, Step(kind, head, RunDry(batch, dues))) && id in batch
    ensures id in s.q.items
    ensures Gone(NextWorker(s, Step(kind, head, RunDry(batch, dues))).q, id, s.q.items[id],
                 if id in s.q.cancelled then Superseded else Done)
  {
    var i :| 0 <= i < |batch| && batch[i] == id;
    assert SetOf(batch) <= s.q.items.Keys - s.q.running by { BatchIsPending(s.q, head, batch, s.now); }
    DryBatchIsDone(s.q, batch, RetryLimit(s, kind), dues, i);
  }

  /** In every run: an item past its expiry leaves as expired, and the items of a dry run are done. */
  lemma StepLeaves(states: seq<State>, events: seq<Event>, n: nat, id: string)
    requires IsRun(states, events) && n < |events| && events[n].Step?
    ensures events[n].choice.Expire? ==>
      events[n].head in states[n].q.items
      && Gone(states[n + 1].q, events[n].head, states[n].q.items[events[n].head], Expired)
    ensures events[n].choice.RunDry? && id in events[n].choice.batch ==>
      id in states[n].q.items
      && Gone(states[n + 1].q, id, states[n].q.items[id], if id in states[n].q.cancelled then Superseded else Done)
  {
    var s, e, t := states[n], events[n], states[n + 1];
    assert Inv(s) by { RunKeeps(states, events, n); }
    assert Takes(s, e, t) by { RunStep(states, events, n + 1); }
    EventLeaves(s, e, t, id);
  }

  lemma EventLeaves(s: State, e: Event, t: State, id: string)
    requires Inv(s) && Takes(s, e, t) && e.Step?
    ensures e.choice.Expire? ==> e.head in s.q.items && Gone(t.q, e.head, s.q.items[e.head], Expired)
    ensures e.choice.RunDry? && id in e.choice.batch ==>
      id in s.q.items && Gone(t.q, id, s.q.items[id], if id in s.q.cancelled then Superseded else Done)
  {
    if e.choice.Expire? { FinishedEffect(s.q, s.q.items[e.head], Expired); }
    if e.choice.RunDry? && id in e.choice.batch {
      DryRunIsDone(s, e.kind, e.head, e.choice.batch, e.choice.dues, id);
    }
  }

  // ---- replies type first ---------------------------------------------------------------------------------

  /** A reply that asks for it shows typing the first time it runs, not in a channel: for as long as it says, or two
      seconds; it is in its second phase from then on, and to be put off until typing ends. Otherwise it is sent. */
  ghost predicate Replies(s: State, item: PendingItem, t: State) {
    var seconds := if item.payload.typingFor == 0.0 then 2.0 else item.payload.typingFor;
    Reply in t.pcs
    && if item.phase == Start && item.payload.typing && !item.broadcast then
         && t.calls == s.calls + [Call(TypingOp(item.chatId, seconds), [item])]
         && t.q.items == s.q.items[item.id := item.(phase := Send)]
         && t.pcs[Reply] == Closing([item.id], Later(s.now + seconds))
       else
         && t.calls == s.calls + [Call(SendOp(item.chatId, item.msgId), [item])]
         && t.q.items == s.q.items
         && t.pcs[Reply] == Acting([item.id])
  }

  lemma BeginReplies(s: State, item: PendingItem)
    requires item.id in s.q.items
    ensures Replies(s, item, ReplyBegun(s, [item.id], item))
  {
  }

  /** In every run, a reply whose turn has come types or is sent. With `SettlingIsExact` it is due again just when its
      typing ends. */
  lemma RepliesTypeFirst(states: seq<State>, events: seq<Event>, n: nat)
    requires IsRun(states, events) && n < |events| && events[n].Begin? && events[n].kind == Reply
    ensures Reply in states[n].pcs && |states[n].pcs[Reply].Batch()| == 1
    ensures states[n].pcs[Reply].Batch()[0] in states[n].q.items
    ensures Replies(states[n], states[n].q.items[states[n].pcs[Reply].Batch()[0]], states[n + 1])
  {
    var s, e, t := states[n], events[n], states[n + 1];
    assert Inv(s) by { RunKeeps(states, events, n); }
    assert Takes(s, e, t) by { RunStep(states, events, n + 1); }
    EventReplies(s, e, t);
  }

  lemma EventReplies(s: State, e: Event, t: State)
    requires Inv(s) && Takes(s, e, t) && e.Begin? && e.kind == Reply
    ensures Reply in s.pcs && |s.pcs[Reply].Batch()| == 1 && s.pcs[Reply].Batch()[0] in s.q.items
    ensures Replies(s, s.q.items[s.pcs[Reply].Batch()[0]], t)
  {
    Deliveries.BatchIsOne(s, Reply);
    var item := s.q.items[s.pcs[Reply].batch[0]];
    assert item.id == s.pcs[Reply].batch[0];
    Executions.ReplyBegunIs(s, e.later, e.jitter, e.sweep);
    BeginReplies(s, item);
  }

  // ---- what an answer comes to ------------------------------------------------------------------------------

  /** An operation that answers makes the execution come out well, one that raises as what it raised; for a reaction the
      answer to its read is only the first half. */
  ghost predicate Comes(s: State, e: Event, t: State) {
    match e
    case ActDone(kind, _) => kind in s.pcs && kind in t.pcs && t.pcs[kind] == Closing(s.pcs[kind].Batch(), Ok)
    case ReadDone(kind, _) =>
      kind in s.pcs && kind in t.pcs
      && t.pcs[kind] == if kind == React then Acting(s.pcs[kind].Batch()) else Closing(s.pcs[kind].Batch(), Ok)
    case Break(kind, verdict) => kind in s.pcs && kind in t.pcs && t.pcs[kind] == Closing(s.pcs[kind].Batch(), verdict)
    case _ => true
  }

  lemma ReadComes(s: State, kind: Kind, sweep: seq<string>)
    requires EnabledWorker(s, ReadDone(kind, sweep))
    ensures Comes(s, ReadDone(kind, sweep), NextWorker(s, ReadDone(kind, sweep)))
  {
  }

  lemma AnswerComes(s: State, e: Event)
    requires (e.ActDone? || e.Break?) && EnabledWorker(s, e)
    ensures Comes(s, e, NextWorker(s, e))
  {
  }

  /** In every run: what an answer makes of an execution. With `SettlingIsExact` its items are done. */
  lemma AnswersCome(states: seq<State>, events: seq<Event>, n: nat)
    requires IsRun(states, events) && n < |events|
    ensures Comes(states[n], events[n], states[n + 1])
  {
    var s, e, t := states[n], events[n], states[n + 1];
    assert Takes(s, e, t) by { RunStep(states, events, n + 1); }
    if e.ReadDone? { ReadComes(s, e.kind, e.sweep); }
    else if e.ActDone? || e.Break? { AnswerComes(s, e); }
  }
}
