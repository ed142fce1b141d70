/** What the pacers do in a run, told by its events alone: which events take a slot, how floods slow a kind down and
    when it recovers, and which rule is in force. */
module PaceHistory {
  import opened Basics
  import opened Items
  import opened Machine
  import opened Safety
  import Executions
  import Deliveries
  import Pacing

  // ---- one event ------------------------------------------------------------------------------------

  /** A reaction whose chat is not read up to its message asks the read pacer, and asks again when it wakes. */
  ghost predicate AsksForRead(s: State, e: Event)
    requires OfWorker(e) && EnabledWorker(s, e)
  {
    e.Wake? || (e.Begin? && e.kind == React
                && var item := s.q.items[s.pcs[React].batch[0]];
                   Get(s.readMarks, (item.chatId, item.topicId), 0) < item.msgId)
  }

  /** The event asks the pacer of the kind for a slot. */
  ghost predicate Asks(s: State, e: Event, kind: Kind)
    requires Enabled(s, e)
  {
    && OfWorker(e)
    && ((e.Step? && e.kind == kind && (e.choice.TooSoon? || e.choice.Run?)) || (kind == Read && AsksForRead(s, e)))
  }

  /** And takes the slot it asks for. */
  ghost predicate TakesSlot(s: State, e: Event, kind: Kind)
    requires Enabled(s, e) && kind in s.pacers
  {
    Asks(s, e, kind) && Pacing.Wait(Pacing.Looked(s.pacers[kind], s.now), s.now) <= 0.0
  }

  /** The moment of the slot: a reaction consumes it at a later reading of the clock. */
  function SlotAt(s: State, e: Event): real {
    if e.Begin? || e.Wake? then e.later else s.now
  }

  function JitterOf(e: Event): real {
    if e.Begin? || e.Wake? then e.jitter else if e.Step? && e.choice.Run? then e.choice.jitter else 1.0
  }

  predicate IsFlood(e: Event, kind: Kind) {
    e.Settle? && e.kind == kind && e.verdict.Flood?
  }

  /** The pacer of a kind after an event. */
  ghost function PacerAfter(s: State, e: Event, kind: Kind): Pacing.PacerState
    requires Enabled(s, e) && kind in s.pacers
  {
    var p := s.pacers[kind];
    if e.Configure? then p.(rule := RuleFor(e.rules, kind))
    else if IsFlood(e, kind) then Pacing.Penalized(p, s.now, e.verdict.wait)
    else if TakesSlot(s, e, kind) then Pacing.Consumed(Pacing.Looked(p, s.now), SlotAt(s, e), JitterOf(e))
    else if Asks(s, e, kind) then Pacing.Looked(p, s.now)
    else p
  }

  lemma ReadPacedPacers(s: State, batch: seq<string>, item: PendingItem, later: real, jitter: real)
    requires Read in s.pacers
    ensures var looked := Pacing.Looked(s.pacers[Read], s.now);
      ReadPaced(s, batch, item, later, jitter).pacers
      == s.pacers[Read := if Pacing.Wait(looked, s.now) > 0.0 then looked else Pacing.Consumed(looked, later, jitter)]
  {
  }

  lemma ReactPacers(s: State, later: real, jitter: real, sweep: seq<string>)
    requires EnabledBegin(s, React, later, jitter, sweep)
    ensures var item := s.q.items[s.pcs[React].batch[0]];
      Begun(s, React, later, jitter, sweep).pacers
      == if Get(s.readMarks, PlaceOf(item), 0) < item.msgId
         then ReadPaced(s, s.pcs[React].batch, item, later, jitter).pacers else s.pacers
  {
    Deliveries.ReactBegunIs(s, later, jitter, sweep);
  }

  lemma OtherBeginPacers(s: State, kind: Kind, later: real, jitter: real, sweep: seq<string>)
    requires EnabledBegin(s, kind, later, jitter, sweep) && kind != React
    ensures Begun(s, kind, later, jitter, sweep).pacers == s.pacers
  {
    var batch := s.pcs[kind].batch;
    match kind
    case Reply => Executions.ReplyBegunIs(s, later, jitter, sweep);
    case Read => assert Begun(s, kind, later, jitter, sweep) == ReadBegun(s, batch, ItemsAt(s.q, batch));
    case View => assert Begun(s, kind, later, jitter, sweep) == ViewBegun(s, batch, ItemsAt(s.q, batch));
    case Forward => assert Begun(s, kind, later, jitter, sweep) == ForwardBegun(s, batch, s.q.items[batch[0]]);
  }

  /** What a request of a reaction to read does to the read pacer. */
  lemma AskedPacer(s: State, e: Event, kind: Kind)
    requires (e.Begin? || e.Wake?) && EnabledWorker(s, e) && kind in s.pacers
    ensures PacerAfter(s, e, kind)
            == if kind != Read || !AsksForRead(s, e) then s.pacers[kind]
               else
                 var looked := Pacing.Looked(s.pacers[Read], s.now);
                 if Pacing.Wait(looked, s.now) > 0.0 then looked else Pacing.Consumed(looked, e.later, e.jitter)
  {
  }

  lemma ReactBeginPacer(s: State, e: Event, kind: Kind)
    requires e.Begin? && e.kind == React && EnabledWorker(s, e) && kind in s.pacers
    ensures kind in NextWorker(s, e).pacers && NextWorker(s, e).pacers[kind] == PacerAfter(s, e, kind)
  {
    AskedPacer(s, e, kind);
    ReactPacers(s, e.later, e.jitter, e.sweep);
    ReadPacedPacers(s, s.pcs[React].batch, s.q.items[s.pcs[React].batch[0]], e.later, e.jitter);
  }

  lemma BeginPacer(s: State, e: Event, kind: Kind)
    requires e.Begin? && EnabledWorker(s, e) && kind in s.pacers
    ensures kind in NextWorker(s, e).pacers && NextWorker(s, e).pacers[kind] == PacerAfter(s, e, kind)
  {
    if e.kind == React {
      ReactBeginPacer(s, e, kind);
    } else {
      AskedPacer(s, e, kind);
      OtherBeginPacers(s, e.kind, e.later, e.jitter, e.sweep);
    }
  }

  lemma WakePacer(s: State, e: Event, kind: Kind)
    requires e.Wake? && EnabledWorker(s, e) && kind in s.pacers
    ensures kind in NextWorker(s, e).pacers && NextWorker(s, e).pacers[kind] == PacerAfter(s, e, kind)
  {
    AskedPacer(s, e, kind);
    ReadPacedPacers(s, s.pcs[React].batch, s.q.items[s.pcs[React].batch[0]], e.later, e.jitter);
  }

  lemma SteppedPacers(s: State, kind: Kind, head: string, choice: Choice)
    requires EnabledStep(s, kind, head, choice)
    ensures var looked := Pacing.Looked(s.pacers[kind], s.now);
      Stepped(s, kind, head, choice).pacers
      == if choice.TooSoon? then s.pacers[kind := looked]
         else if choice.Run? then s.pacers[kind := Pacing.Consumed(looked, s.now, choice.jitter)]
         else s.pacers
  {
  }

  lemma StepAsksPacer(s: State, kind: Kind, head: string, choice: Choice)
    requires EnabledStep(s, kind, head, choice)
    ensures choice.Run? ==> Pacing.Wait(Pacing.Looked(s.pacers[kind], s.now), s.now) <= 0.0
    ensures choice.TooSoon? ==> Pacing.Wait(Pacing.Looked(s.pacers[kind], s.now), s.now) > 0.0
  {
  }

  lemma SteppedPacer(s: State, e: Event, kind: Kind)
    requires e.Step? && EnabledWorker(s, e) && kind in s.pacers
    ensures var looked := Pacing.Looked(s.pacers[kind], s.now);
      PacerAfter(s, e, kind)
      == if kind == e.kind && e.choice.TooSoon? then looked
         else if kind == e.kind && e.choice.Run? then Pacing.Consumed(looked, s.now, e.choice.jitter)
         else s.pacers[kind]
  {
    StepAsksPacer(s, e.kind, e.head, e.choice);
  }

  lemma StepPacer(s: State, e: Event, kind: Kind)
    requires e.Step? && EnabledWorker(s, e) && kind in s.pacers
    ensures kind in NextWorker(s, e).pacers && NextWorker(s, e).pacers[kind] == PacerAfter(s, e, kind)
  {
    SteppedPacers(s, e.kind, e.head, e.choice);
    SteppedPacer(s, e, kind);
  }

  lemma SettlePacer(s: State, e: Event, kind: Kind)
    requires e.Settle? && EnabledWorker(s, e) && kind in s.pacers
    ensures kind in NextWorker(s, e).pacers && NextWorker(s, e).pacers[kind] == PacerAfter(s, e, kind)
  {
  }

  lemma AnswerPacers(s: State, e: Event)
    requires (e.ReadDone? || e.ActDone? || e.Break? || e.Stop?) && EnabledWorker(s, e)
    ensures NextWorker(s, e).pacers == s.pacers
  {
  }

  lemma AnswerPacer(s: State, e: Event, kind: Kind)
    requires (e.ReadDone? || e.ActDone? || e.Break? || e.Stop?) && EnabledWorker(s, e) && kind in s.pacers
    ensures kind in NextWorker(s, e).pacers && NextWorker(s, e).pacers[kind] == PacerAfter(s, e, kind)
  {
    AnswerPacers(s, e);
  }

  lemma OutsidePacers(s: State, e: Event)
    requires !OfWorker(e)
    ensures NextOutside(s, e).pacers == if e.Configure? then Reconfigured(s.pacers, e.rules) else s.pacers
  {
  }

  lemma OutsidePacer(s: State, e: Event, kind: Kind)
    requires !OfWorker(e) && Enabled(s, e) && kind in s.pacers
    ensures kind in NextOutside(s, e).pacers && NextOutside(s, e).pacers[kind] == PacerAfter(s, e, kind)
  {
    OutsidePacers(s, e);
  }

  lemma EventPacer(s: State, e: Event, t: State, kind: Kind)
    requires Takes(s, e, t) && kind in s.pacers
    ensures kind in t.pacers && t.pacers[kind] == PacerAfter(s, e, kind)
  {
    if !OfWorker(e) { OutsidePacer(s, e, kind); }
    else if e.Begin? { BeginPacer(s, e, kind); }
    else if e.Wake? { WakePacer(s, e, kind); }
    else if e.Step? { StepPacer(s, e, kind); }
    else if e.Settle? { SettlePacer(s, e, kind); }
    else { AnswerPacer(s, e, kind); }
  }

  lemma RunEventPacer(states: seq<State>, events: seq<Event>, n: nat, kind: Kind)
    requires IsRun(states, events) && 0 < n < |states| && kind in states[n - 1].pacers
    ensures Enabled(states[n - 1], events[n - 1])
    ensures kind in states[n].pacers && states[n].pacers[kind] == PacerAfter(states[n - 1], events[n - 1], kind)
  {
    var s, e, t := states[n - 1], events[n - 1], states[n];
    assert Takes(s, e, t) by { RunStep(states, events, n); }
    EventPacer(s, e, t, kind);
  }

  lemma {:induction false} RunHasPacer(states: seq<State>, events: seq<Event>, n: nat, kind: Kind)
    requires IsRun(states, events) && n < |states|
    ensures kind in states[n].pacers
  {
    if n > 0 {
      RunHasPacer(states, events, n - 1, kind);
      RunEventPacer(states, events, n, kind);
    }
  }

  // ---- the slow-down --------------------------------------------------------------------------------------

  /** When the kind was flooded last. */
  function LastFlood(states: seq<State>, events: seq<Event>, n: nat, kind: Kind): real
    requires n <= |events| && n < |states|
  {
    if n == 0 then 0.0
    else if IsFlood(events[n - 1], kind) then states[n - 1].now else LastFlood(states, events, n - 1, kind)
  }

  /** The slow-down as its history has it: every flood doubles it, up to 8; and it is back at 1 as soon as the pacer is
      asked ten minutes or more after the last flood. */
  ghost function Slowdown(states: seq<State>, events: seq<Event>, n: nat, kind: Kind): real
    requires IsRun(states, events) && n < |states|
  {
    if n == 0 then 1.0
    else
      RunStep(states, events, n);
      var d, s, e := Slowdown(states, events, n - 1, kind), states[n - 1], events[n - 1];
      if IsFlood(e, kind) then (if d * 2.0 > 8.0 then 8.0 else d * 2.0)
      else if Asks(s, e, kind) && d > 1.0 && s.now - LastFlood(states, events, n - 1, kind) >= 600.0 then 1.0
      else d
  }

  lemma SlowdownMoves(p: Pacing.PacerState, s: State, e: Event, kind: Kind)
    requires Enabled(s, e) && kind in s.pacers && p == s.pacers[kind]
    ensures var r := PacerAfter(s, e, kind);
      && r.lastFloodAt == (if IsFlood(e, kind) then s.now else p.lastFloodAt)
      && r.slowdown == if IsFlood(e, kind) then (if p.slowdown * 2.0 > 8.0 then 8.0 else p.slowdown * 2.0)
                       else if Asks(s, e, kind) && p.slowdown > 1.0 && s.now - p.lastFloodAt >= 600.0 then 1.0
                       else p.slowdown
  {
  }

  /** In every run the slow-down of every pacer is what its history says. */
  lemma {:induction false} SlowdownIsExact(states: seq<State>, events: seq<Event>, n: nat, kind: Kind)
    requires IsRun(states, events) && n < |states|
    ensures kind in states[n].pacers
    ensures states[n].pacers[kind].slowdown == Slowdown(states, events, n, kind)
    ensures states[n].pacers[kind].lastFloodAt == LastFlood(states, events, n, kind)
  {
    if n > 0 {
      SlowdownIsExact(states, events, n - 1, kind);
      RunEventPacer(states, events, n, kind);
      SlowdownMoves(states[n - 1].pacers[kind], states[n - 1], events[n - 1], kind);
    }
  }

  // ---- the slots -------------------------------------------------------------------------------------------

  /** An execution of the kind starts that is no dry run, or a reaction sends the read it needs. */
  ghost predicate IsSlot(s: State, e: Event, t: State, kind: Kind) {
    || (e.Step? && e.kind == kind && e.choice.Run?)
    || (kind == Read && (e.Begin? || e.Wake?) && e.kind == React
        && |t.calls| > |s.calls| && t.calls[|s.calls|].op.ReadOp?)
  }

  lemma ReadPacedCalls(s: State, batch: seq<string>, item: PendingItem, later: real, jitter: real)
    requires Read in s.pacers
    ensures var t := ReadPaced(s, batch, item, later, jitter);
      if Pacing.Wait(Pacing.Looked(s.pacers[Read], s.now), s.now) > 0.0 then t.calls == s.calls
      else |t.calls| == |s.calls| + 1 && t.calls[|s.calls|].op.ReadOp? && t.now == later
  {
  }

  lemma ReactionCalls(s: State, batch: seq<string>, item: PendingItem, sweep: seq<string>)
    ensures var t := ReactIssued(s, batch, item, sweep);
      |t.calls| == |s.calls| + 1 && t.calls[|s.calls|].op.ReactionOp?
  {
  }

  lemma WakeSlot(s: State, e: Event, kind: Kind)
    requires e.Wake? && EnabledWorker(s, e) && kind in s.pacers
    ensures IsSlot(s, e, NextWorker(s, e), kind) <==> TakesSlot(s, e, kind)
    ensures TakesSlot(s, e, kind) ==> NextWorker(s, e).now == e.later
  {
    AskedSlot(s, e, kind);
    ReadPacedCalls(s, s.pcs[React].batch, s.q.items[s.pcs[React].batch[0]], e.later, e.jitter);
  }

  lemma AskedSlot(s: State, e: Event, kind: Kind)
    requires (e.Begin? || e.Wake?) && EnabledWorker(s, e) && kind in s.pacers
    ensures TakesSlot(s, e, kind) <==>
      kind == Read && AsksForRead(s, e) && !(Pacing.Wait(Pacing.Looked(s.pacers[Read], s.now), s.now) > 0.0)
  {
  }

  lemma ReactAskSlot(s: State, e: Event, kind: Kind)
    requires e.Begin? && EnabledWorker(s, e) && kind in s.pacers && e.kind == React && AsksForRead(s, e)
    ensures IsSlot(s, e, NextWorker(s, e), kind) <==> TakesSlot(s, e, kind)
    ensures TakesSlot(s, e, kind) ==> NextWorker(s, e).now == e.later
  {
    AskedSlot(s, e, kind);
    Deliveries.ReactBegunIs(s, e.later, e.jitter, e.sweep);
    ReadPacedCalls(s, s.pcs[React].batch, s.q.items[s.pcs[React].batch[0]], e.later, e.jitter);
  }

  lemma ReactSlot(s: State, e: Event, kind: Kind)
    requires e.Begin? && EnabledWorker(s, e) && kind in s.pacers && e.kind == React
    ensures IsSlot(s, e, NextWorker(s, e), kind) <==> TakesSlot(s, e, kind)
    ensures TakesSlot(s, e, kind) ==> NextWorker(s, e).now == e.later
  {
    if AsksForRead(s, e) {
      ReactAskSlot(s, e, kind);
    } else {
      AskedSlot(s, e, kind);
      Deliveries.ReactBegunIs(s, e.later, e.jitter, e.sweep);
      ReactionCalls(s, s.pcs[React].batch, s.q.items[s.pcs[React].batch[0]], e.sweep);
    }
  }

  lemma SteppedNow(s: State, kind: Kind, head: string, choice: Choice)
    requires EnabledStep(s, kind, head, choice)
    ensures Stepped(s, kind, head, choice).now == s.now
  {
  }

  lemma StepSlot(s: State, e: Event, kind: Kind)
    requires e.Step? && EnabledWorker(s, e) && kind in s.pacers
    ensures e.kind == kind && e.choice.Run? <==> TakesSlot(s, e, kind)
  {
    StepAsksPacer(s, e.kind, e.head, e.choice);
  }

  lemma EventSlot(s: State, e: Event, t: State, kind: Kind)
    requires Takes(s, e, t) && kind in s.pacers
    ensures IsSlot(s, e, t, kind) <==> TakesSlot(s, e, kind)
    ensures TakesSlot(s, e, kind) ==> SlotAt(s, e) == t.now
  {
    if e.Step? {
      StepSlot(s, e, kind);
      SteppedNow(s, e.kind, e.head, e.choice);
    } else if e.Wake? {
      WakeSlot(s, e, kind);
    } else if e.Begin? && e.kind == React {
      ReactSlot(s, e, kind);
    } else {
      NoSlot(s, e, kind);
    }
  }

  lemma NoSlot(s: State, e: Event, kind: Kind)
    requires Enabled(s, e) && kind in s.pacers && !e.Step? && !e.Wake? && !(e.Begin? && e.kind == React)
    ensures !TakesSlot(s, e, kind)
  {
  }

  /** The slots of a kind as the events of a run have them: when, under which floor, and how much slowed down. */
  ghost function Slots(states: seq<State>, events: seq<Event>, n: nat, kind: Kind): seq<(real, real, real)>
    requires IsRun(states, events) && n < |states|
  {
    if n == 0 then []
    else
      RunHasPacer(states, events, n - 1, kind);
      Slots(states, events, n - 1, kind)
      + if IsSlot(states[n - 1], events[n - 1], states[n], kind)
        then [(states[n].now, states[n - 1].pacers[kind].rule.every, Slowdown(states, events, n, kind))] else []
  }

  ghost predicate Logs(slots: seq<Pacing.Slot>, history: seq<(real, real, real)>) {
    |slots| == |history|
    && forall i :: 0 <= i < |slots| ==> (slots[i].at, slots[i].every, slots[i].slowdown) == history[i]
  }

  lemma LogsOneMore(slots: seq<Pacing.Slot>, history: seq<(real, real, real)>, slot: Pacing.Slot)
    requires Logs(slots, history)
    ensures Logs(slots + [slot], history + [(slot.at, slot.every, slot.slowdown)])
  {
  }

  /** What an event adds to the log of a pacer. */
  lemma LogMoves(s: State, e: Event, t: State, kind: Kind)
    requires Takes(s, e, t) && kind in s.pacers
    ensures kind in t.pacers
    ensures var slots, now := s.pacers[kind].log.slots, t.pacers[kind].log.slots;
      if IsSlot(s, e, t, kind)
      then |now| == |slots| + 1 && now == slots + [now[|slots|]] && now[|slots|].at == t.now
           && now[|slots|].every == s.pacers[kind].rule.every && now[|slots|].slowdown == t.pacers[kind].slowdown
      else now == slots
  {
    EventPacer(s, e, t, kind);
    EventSlot(s, e, t, kind);
  }

  /** In every run the slots a pacer has given out are those its events take, and no others: whatever is sent, apart
      from dry runs, has taken its slot. */
  lemma {:induction false} SlotsAreTaken(states: seq<State>, events: seq<Event>, n: nat, kind: Kind)
    requires IsRun(states, events) && n < |states|
    ensures kind in states[n].pacers && Logs(states[n].pacers[kind].log.slots, Slots(states, events, n, kind))
  {
    if n > 0 {
      SlotsAreTaken(states, events, n - 1, kind);
      RunLogMoves(states, events, n, kind);
    }
  }

  lemma RunLogMoves(states: seq<State>, events: seq<Event>, n: nat, kind: Kind)
    requires IsRun(states, events) && 0 < n < |states| && kind in states[n - 1].pacers
    requires Logs(states[n - 1].pacers[kind].log.slots, Slots(states, events, n - 1, kind))
    ensures kind in states[n].pacers && Logs(states[n].pacers[kind].log.slots, Slots(states, events, n, kind))
  {
    var s, e, t := states[n - 1], events[n - 1], states[n];
    assert Takes(s, e, t) by { RunStep(states, events, n); }
    LogMoves(s, e, t, kind);
    SlowdownIsExact(states, events, n, kind);
    if IsSlot(s, e, t, kind) {
      LogsOneMore(s.pacers[kind].log.slots, Slots(states, events, n - 1, kind),
                  t.pacers[kind].log.slots[|s.pacers[kind].log.slots|]);
    }
  }

  /** In every run: from one slot of a kind to the next it takes at least the floor of its rule times the slow-down the
      first was taken under, whoever takes them. */
  lemma SlowedPaceIsKept(states: seq<State>, events: seq<Event>, n: nat, kind: Kind, i: nat)
    requires IsRun(states, events) && n < |states| && i + 1 < |Slots(states, events, n, kind)|
    ensures var slots := Slots(states, events, n, kind);
      slots[i + 1].0 >= slots[i].0 + slots[i].1 * slots[i].2
  {
    SlotsAreTaken(states, events, n, kind);
    var slots := states[n].pacers[kind].log.slots;
    assert Pacing.Spaced(slots) by { RunKeeps(states, events, n); }
    assert slots[i + 1].at >= slots[i + 1 - 1].Until();
  }

  // ---- flood waits ------------------------------------------------------------------------------------------

  /** Since the log had `k` slots, a flood wait is known that ends at `until` or later. */
  ghost predicate Waits(p: Pacing.PacerState, k: nat, until: real) {
    && p.log.floodUntil >= until
    && forall i :: k <= i < |p.log.slots| ==> p.log.slots[i].floodUntil >= until
  }

  lemma WaitsOn(s: State, e: Event, kind: Kind, k: nat, until: real)
    requires Enabled(s, e) && kind in s.pacers && Waits(s.pacers[kind], k, until)
    ensures Waits(PacerAfter(s, e, kind), k, until)
  {
  }

  lemma {:induction false} RunWaits(states: seq<State>, events: seq<Event>, m: nat, n: nat, kind: Kind)
    requires IsRun(states, events) && m < n < |states| && IsFlood(events[m], kind)
    ensures kind in states[m].pacers && kind in states[n].pacers
    ensures Waits(states[n].pacers[kind], |states[m].pacers[kind].log.slots|, states[m].now + events[m].verdict.wait)
  {
    RunHasPacer(states, events, m, kind);
    if n == m + 1 {
      RunEventPacer(states, events, n, kind);
    } else {
      RunWaits(states, events, m, n - 1, kind);
      RunEventPacer(states, events, n, kind);
      WaitsOn(states[n - 1], events[n - 1], kind, |states[m].pacers[kind].log.slots|,
              states[m].now + events[m].verdict.wait);
    }
  }

  lemma {:induction false} SlotsGrow(states: seq<State>, events: seq<Event>, m: nat, n: nat, kind: Kind)
    requires IsRun(states, events) && m <= n < |states|
    ensures Slots(states, events, m, kind) <= Slots(states, events, n, kind)
  {
    if m < n { SlotsGrow(states, events, m, n - 1, kind); }
  }

  /** In every run: after a flood of `w` seconds no slot of its kind is taken before the wait is over. */
  lemma FloodIsWaitedOut(states: seq<State>, events: seq<Event>, m: nat, n: nat, kind: Kind, i: nat)
    requires IsRun(states, events) && m < n < |states| && IsFlood(events[m], kind)
    requires |Slots(states, events, m, kind)| <= i < |Slots(states, events, n, kind)|
    ensures Slots(states, events, n, kind)[i].0 >= states[m].now + events[m].verdict.wait
  {
    SlotsAreTaken(states, events, m, kind);
    SlotsAreTaken(states, events, n, kind);
    RunWaits(states, events, m, n, kind);
    var slots := states[n].pacers[kind].log.slots;
    assert Pacing.PastFloods(slots) by { RunKeeps(states, events, n); }
    assert slots[i].at >= slots[i].floodUntil;
  }

  // ---- rules --------------------------------------------------------------------------------------------------

  /** The rule the last configuration gives the kind, or the built-in one. */
  function RuleOf(events: seq<Event>, n: nat, kind: Kind): Pacing.Rule
    requires n <= |events|
  {
    if n == 0 then BuiltIn(kind)
    else if events[n - 1].Configure? then
      if kind in events[n - 1].rules then events[n - 1].rules[kind] else BuiltIn(kind)
    else RuleOf(events, n - 1, kind)
  }

  /** A reaction every four seconds and three hundred an hour; a read or a view every two; a message every 1.5. */
  function BuiltIn(kind: Kind): Pacing.Rule {
    if kind == React then Pacing.Rule(4.0, 300)
    else if kind == Read || kind == View then Pacing.Rule(2.0, 0)
    else Pacing.Rule(1.5, 0)
  }

  lemma RuleMoves(s: State, e: Event, kind: Kind)
    requires Enabled(s, e) && kind in s.pacers
    ensures PacerAfter(s, e, kind).rule
            == if e.Configure? then (if kind in e.rules then e.rules[kind] else BuiltIn(kind)) else s.pacers[kind].rule
  {
  }

  /** In every run each pacer is under the rule of the last configuration. */
  lemma {:induction false} RulesAreConfigured(states: seq<State>, events: seq<Event>, n: nat, kind: Kind)
    requires IsRun(states, events) && n < |states|
    ensures kind in states[n].pacers && states[n].pacers[kind].rule == RuleOf(events, n, kind)
  {
    if n > 0 {
      RulesAreConfigured(states, events, n - 1, kind);
      RunEventPacer(states, events, n, kind);
      RuleMoves(states[n - 1], events[n - 1], kind);
    }
  }

  /** The expiries of the last configuration, or none. */
  function ExpiriesOf(events: seq<Event>, n: nat): map<Kind, Option<real>>
    requires n <= |events|
  {
    if n == 0 then map[]
    else if events[n - 1].Configure? then events[n - 1].expire else ExpiriesOf(events, n - 1)
  }

  /** In every run the expiries in force are those of the last configuration. */
  lemma {:induction false} ExpiriesAreConfigured(states: seq<State>, events: seq<Event>, n: nat)
    requires IsRun(states, events) && n < |states|
    ensures states[n].expire == ExpiriesOf(events, n)
  {
    if n > 0 {
      ExpiriesAreConfigured(states, events, n - 1);
      var s, e, t := states[n - 1], events[n - 1], states[n];
      assert Takes(s, e, t) by { RunStep(states, events, n); }
      if OfWorker(e) { assert OneCall(s, NextWorker(s, e)); }
    }
  }
}
