/** Pacing over whole runs of the scheduler, whoever takes the slots: the read
    pacer serves the read worker and `ensure_read` in the react worker alike. */
module Pace {
  import opened Items
  import opened Machine
  import opened Safety
  import Pacing

  /** In every run, also when the rules change on the way: consecutive slots of a kind keep the floor of
      the rule they were taken under, no slot lies inside a flood wait announced before it, the slow-down is
      1, 2, 4 or 8, and a slot taken under a cap is an hour after the one that many capped slots before it. */
  lemma PaceIsKept(states: seq<State>, events: seq<Event>, n: nat, kind: Kind)
    requires IsRun(states, events) && n < |states|
    ensures kind in states[n].pacers
    ensures var p := states[n].pacers[kind];
      && Pacing.Spaced(p.log.slots) && Pacing.PastFloods(p.log.slots) && Pacing.Rolling(p.log.capped)
      && p.slowdown in {1.0, 2.0, 4.0, 8.0}
  {
    RunKeeps(states, events, n);
  }

  // ---- a rule that stays ----------------------------------------------------------------

  /** A rule, and how much had been logged when it took effect. */
  datatype Phase = Phase(rule: Pacing.Rule, slots: nat, capped: nat)

  function PhaseOf(p: Pacing.PacerState): Phase {
    Phase(p.rule, |p.log.slots|, |p.log.capped|)
  }

  /** The rule is in force, and what was logged since it took effect is logged under it. */
  ghost predicate AtRule(p: Pacing.PacerState, phase: Phase) {
    && p.rule == phase.rule && phase.slots <= |p.log.slots| && phase.capped <= |p.log.capped|
    && (forall i :: phase.slots <= i < |p.log.slots| ==> p.log.slots[i].every == phase.rule.every)
    && (forall i :: phase.capped <= i < |p.log.capped| ==> p.log.capped[i].cap == phase.rule.perHour)
    && (phase.rule.perHour > 0 ==> SameTimes(p.log.slots[phase.slots..], p.log.capped[phase.capped..]))
  }

  ghost predicate SameTimes(slots: seq<Pacing.Slot>, capped: seq<Pacing.CappedSlot>) {
    |slots| == |capped| && forall i :: 0 <= i < |slots| ==> slots[i].at == capped[i].at
  }

  /** No pacer is given another rule, and what is logged is logged under it. */
  ghost predicate KeepsRules(p: map<Kind, Pacing.PacerState>, r: map<Kind, Pacing.PacerState>) {
    forall k :: k in p ==> k in r && KeepsRule(p[k], r[k])
  }

  ghost predicate KeepsRule(p: Pacing.PacerState, r: Pacing.PacerState) {
    forall phase :: AtRule(p, phase) ==> AtRule(r, phase)
  }

  lemma LookedKeepsRule(p: Pacing.PacerState, now: real)
    ensures KeepsRule(p, Pacing.Looked(p, now))
  {
    assert Pacing.Looked(p, now).log.slots == p.log.slots && Pacing.Looked(p, now).log.capped == p.log.capped;
  }

  lemma PenalizedKeepsRule(p: Pacing.PacerState, now: real, wait: real)
    ensures KeepsRule(p, Pacing.Penalized(p, now, wait))
  {
    assert Pacing.Penalized(p, now, wait).log.slots == p.log.slots;
  }

  lemma ConsumedAtRule(p: Pacing.PacerState, now: real, factor: real, phase: Phase)
    requires AtRule(p, phase)
    ensures AtRule(Pacing.Consumed(p, now, factor), phase)
  {
    var r := Pacing.Consumed(p, now, factor);
    assert r.log.slots[phase.slots..] == p.log.slots[phase.slots..] + [r.log.slots[|p.log.slots|]];
    if p.rule.perHour > 0 {
      assert r.log.capped[phase.capped..] == p.log.capped[phase.capped..] + [r.log.capped[|p.log.capped|]];
    }
  }

  lemma ConsumedKeepsRule(p: Pacing.PacerState, now: real, factor: real)
    ensures KeepsRule(p, Pacing.Consumed(p, now, factor))
  {
    forall phase | AtRule(p, phase) ensures AtRule(Pacing.Consumed(p, now, factor), phase) {
      ConsumedAtRule(p, now, factor, phase);
    }
  }

  lemma PacerStepsKeepRule(p: Pacing.PacerState, now: real, later: real, x: real)
    ensures KeepsRule(p, Pacing.Looked(p, now))
    ensures KeepsRule(p, Pacing.Consumed(Pacing.Looked(p, now), later, x))
    ensures KeepsRule(p, Pacing.Penalized(p, now, x))
  {
    LookedKeepsRule(p, now);
    ConsumedKeepsRule(Pacing.Looked(p, now), later, x);
    PenalizedKeepsRule(p, now, x);
  }

  lemma SamePacersKeepRules(p: map<Kind, Pacing.PacerState>)
    ensures KeepsRules(p, p)
  {
  }

  lemma StepKeepsRules(s: State, kind: Kind, head: string, choice: Choice)
    requires EnabledStep(s, kind, head, choice)
    ensures KeepsRules(s.pacers, Stepped(s, kind, head, choice).pacers)
  {
    SamePacersKeepRules(s.pacers);
    var jitter := if choice.Run? then choice.jitter else 1.0;
    PacerStepsKeepRule(s.pacers[kind], s.now, s.now, jitter);
  }

  lemma ReplacedKeepsRules(p: map<Kind, Pacing.PacerState>, kind: Kind, r: Pacing.PacerState)
    requires kind in p && KeepsRule(p[kind], r)
    ensures KeepsRules(p, p[kind := r])
  {
  }

  lemma ReadPacedKeepsRules(s: State, batch: seq<string>, item: PendingItem, later: real, jitter: real)
    requires Read in s.pacers
    ensures KeepsRules(s.pacers, ReadPaced(s, batch, item, later, jitter).pacers)
  {
    var looked := Pacing.Looked(s.pacers[Read], s.now);
    PacerStepsKeepRule(s.pacers[Read], s.now, later, jitter);
    ReplacedKeepsRules(s.pacers, Read, looked);
    ReplacedKeepsRules(s.pacers, Read, Pacing.Consumed(looked, later, jitter));
  }

  lemma SettledKeepsRules(s: State, kind: Kind, batch: seq<string>, verdict: Verdict, dues: seq<real>)
    requires |dues| == |batch| && kind in s.pacers
    ensures KeepsRules(s.pacers, SettledState(s, kind, batch, verdict, dues).pacers)
  {
    SamePacersKeepRules(s.pacers);
    PacerStepsKeepRule(s.pacers[kind], s.now, s.now, if verdict.Flood? then verdict.wait else 0.0);
  }

  lemma BegunKeepsRules(s: State, kind: Kind, later: real, jitter: real, sweep: seq<string>)
    requires EnabledBegin(s, kind, later, jitter, sweep)
    ensures KeepsRules(s.pacers, Begun(s, kind, later, jitter, sweep).pacers)
  {
    var batch := s.pcs[kind].batch;
    SamePacersKeepRules(s.pacers);
    ReadPacedKeepsRules(s, batch, s.q.items[batch[0]], later, jitter);
  }

  lemma WorkerKeepsRules(s: State, e: Event)
    requires OfWorker(e) && EnabledWorker(s, e)
    ensures KeepsRules(s.pacers, NextWorker(s, e).pacers)
  {
    SamePacersKeepRules(s.pacers);
    match e
    case Step(kind, head, choice) => StepKeepsRules(s, kind, head, choice);
    case Begin(kind, later, jitter, sweep) => BegunKeepsRules(s, kind, later, jitter, sweep);
    case Wake(kind, later, jitter) =>
      ReadPacedKeepsRules(s, s.pcs[kind].batch, s.q.items[s.pcs[kind].batch[0]], later, jitter);
    case Settle(kind, verdict, dues) => SettledKeepsRules(s, kind, s.pcs[kind].batch, verdict, dues);
    case _ =>
  }

  /** The event does not give the kind another rule. */
  ghost predicate KeepsRuleOf(e: Event, kind: Kind, rule: Pacing.Rule) {
    e.Configure? ==> RuleFor(e.rules, kind) == rule
  }

  lemma OutsideKeepsRule(s: State, e: Event, kind: Kind, phase: Phase)
    requires !OfWorker(e) && KeepsRuleOf(e, kind, phase.rule) && kind in s.pacers && AtRule(s.pacers[kind], phase)
    ensures kind in NextOutside(s, e).pacers && AtRule(NextOutside(s, e).pacers[kind], phase)
  {
  }

  lemma EventKeepsRule(s: State, e: Event, t: State, kind: Kind, phase: Phase)
    requires Takes(s, e, t) && KeepsRuleOf(e, kind, phase.rule) && kind in s.pacers && AtRule(s.pacers[kind], phase)
    ensures kind in t.pacers && AtRule(t.pacers[kind], phase)
  {
    if OfWorker(e) { WorkerKeepsRules(s, e); } else { OutsideKeepsRule(s, e, kind, phase); }
  }

  lemma {:induction false} RunKeepsRule(states: seq<State>, events: seq<Event>, m: nat, n: nat, kind: Kind)
    requires IsRun(states, events) && m <= n < |states| && kind in states[m].pacers
    requires forall i :: m <= i < n ==> KeepsRuleOf(events[i], kind, states[m].pacers[kind].rule)
    ensures kind in states[n].pacers && AtRule(states[n].pacers[kind], PhaseOf(states[m].pacers[kind]))
  {
    if n > m {
      var s, e, t := states[n - 1], events[n - 1], states[n];
      RunKeepsRule(states, events, m, n - 1, kind);
      assert Takes(s, e, t) by { RunStep(states, events, n); }
      EventKeepsRule(s, e, t, kind, PhaseOf(states[m].pacers[kind]));
    }
  }

  /** How many slots lie in the window `[from, from + 3600)`. */
  function SlotsIn(slots: seq<Pacing.Slot>, from: real): nat {
    if slots == [] then 0
    else SlotsIn(slots[..|slots| - 1], from)
         + if from <= slots[|slots| - 1].at < from + Pacing.HOUR then 1 else 0
  }

  lemma {:induction false} SlotsAreCapped(slots: seq<Pacing.Slot>, capped: seq<Pacing.CappedSlot>, from: real)
    requires SameTimes(slots, capped)
    ensures SlotsIn(slots, from) == Pacing.InWindow(capped, from)
  {
    if slots != [] {
      SlotsAreCapped(slots[..|slots| - 1], capped[..|capped| - 1], from);
    }
  }

  /** Slots from `k` on lie `every` apart for each step between them. */
  ghost predicate ApartFrom(slots: seq<Pacing.Slot>, k: nat, every: real) {
    forall i, j :: k <= i < j < |slots| ==> slots[j].at - slots[i].at >= every * (j - i) as real
  }

  lemma PhaseFloor(slots: seq<Pacing.Slot>, k: nat, every: real)
    requires Pacing.Spaced(slots)
    requires forall i :: k <= i < |slots| ==> slots[i].every == every
    ensures ApartFrom(slots, k, every)
  {
    forall i, j | k <= i < j < |slots| ensures slots[j].at - slots[i].at >= every * (j - i) as real {
      Pacing.FloorHolds(slots, every, i, j);
    }
  }

  lemma PhaseCap(p: Pacing.PacerState, phase: Phase, from: real)
    requires Pacing.Valid(p) && AtRule(p, phase) && phase.rule.perHour > 0
    ensures SlotsIn(p.log.slots[phase.slots..], from) <= phase.rule.perHour
  {
    var capped := p.log.capped[phase.capped..];
    assert Pacing.Rolling(capped) by { RollsOn(p.log.capped, phase.capped); }
    Pacing.CapHolds(capped, phase.rule.perHour, from);
    SlotsAreCapped(p.log.slots[phase.slots..], capped, from);
  }

  lemma RollsOn(capped: seq<Pacing.CappedSlot>, k: nat)
    requires Pacing.Rolling(capped) && k <= |capped|
    ensures Pacing.Rolling(capped[k..])
  {
    var later := capped[k..];
    forall i | 0 <= i < |later| && i >= later[i].cap && later[i].cap > 0
      ensures later[i].at - later[i - later[i].cap].at >= Pacing.HOUR
    {
      assert later[i] == capped[k + i];
    }
  }

  /** Pacing under a rule. Take any stretch of any run, from state `m` to state `n`, in which no configuration gives
      the kind another rule than it has at `m` (a configuration that gives it the same rule again changes nothing):
      any two slots taken in that stretch are `every` apart for each step between them, and no window of an hour,
      wherever it starts, holds more than `per_hour` of them. */
  lemma PaceHolds(states: seq<State>, events: seq<Event>, m: nat, n: nat, kind: Kind, from: real)
    requires IsRun(states, events) && m <= n < |states| && kind in states[m].pacers
    requires forall i :: m <= i < n ==> KeepsRuleOf(events[i], kind, states[m].pacers[kind].rule)
    ensures kind in states[n].pacers && |states[m].pacers[kind].log.slots| <= |states[n].pacers[kind].log.slots|
    ensures var rule, slots, k := states[m].pacers[kind].rule, states[n].pacers[kind].log.slots,
                                  |states[m].pacers[kind].log.slots|;
      && ApartFrom(slots, k, rule.every)
      && (rule.perHour > 0 ==> SlotsIn(slots[k..], from) <= rule.perHour)
  {
    var phase := PhaseOf(states[m].pacers[kind]);
    RunKeepsRule(states, events, m, n, kind);
    PacerIsValid(states, events, n, kind);
    var p := states[n].pacers[kind];
    PhaseFloor(p.log.slots, phase.slots, phase.rule.every);
    if phase.rule.perHour > 0 { PhaseCap(p, phase, from); }
  }

  lemma PacerIsValid(states: seq<State>, events: seq<Event>, n: nat, kind: Kind)
    requires IsRun(states, events) && n < |states|
    ensures kind in states[n].pacers && Pacing.Valid(states[n].pacers[kind])
  {
    RunKeeps(states, events, n);
  }
}
