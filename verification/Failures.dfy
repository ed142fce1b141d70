/** Runs in which the code does less than it seems to promise: each starts at the initial state, takes enabled events
    only, and ends where work comes back that was cancelled, or is lost that nobody gave up. */
module Failures {
  import opened Basics
  import opened Items
  import opened Queues
  import opened Store
  import opened Machine
  import opened Safety
  import opened Restart
  import Echoes
  import Executions
  import Pacing

  /** A forward from chat 1 to chat 8. */
  function Mail(): PendingItem {
    PendingItem("x", "job", Forward, 0, 1, 1, 0.0, 0.0, None, false, None, Phase.Start, 0, 0, None,
                Ignore, false, Payload(false, false, CountViews, false, 0.0, "", 8), "", "")
  }

  /** A reaction in chat 8, due later, that a manual takeover cancels. */
  function Thumb(): PendingItem {
    PendingItem("y", "job", React, 0, 8, 3, 0.0, 60.0, None, false, None, Phase.Start, 0, 0, None,
                Cancel, false, Payload(false, false, CountViews, false, 0.0, "", 0), "", "")
  }

  const LOAD: Event := Preload(File([], []))
  const SUBMIT_MAIL: Event := Submit(Mail(), None, false)
  const SUBMIT_THUMB: Event := Submit(Thumb(), None, false)
  const START_MAIL: Event := Step(Forward, "x", Run(["x"], 1.0))
  const SEND_MAIL: Event := Begin(Forward, 0.0, 1.0, [])
  const CANCEL_ALL: Event := CancelItems(Selector({}, None, None, true), [])

  // ---- the events, one by one ---------------------------------------------------------------------

  /** Nothing has happened yet but what was handed in. */
  ghost predicate Calm(s: State) {
    && s.loaded && !s.resumed && !s.closed && s.now == 0.0 && s.held == [] && s.q.running == {} && s.q.cancelled == {}
    && s.ownSent == map[] && s.ownSendAt == map[]
    && Forward in s.pcs && s.pcs[Forward].Idle? && Read in s.pacers
    && Forward in s.pacers && s.pacers[Forward] == Pacing.Fresh(DefaultRule(Forward))
  }

  lemma Loads() returns (t: State)
    ensures Takes(Init(), LOAD, t) && Calm(t) && t.q.items == map[] && t.q.ledger.used == {}
  {
    t := NextOutside(Init(), LOAD);
  }

  lemma Submits(s: State, item: PendingItem) returns (t: State)
    requires Calm(s) && item.key == "" && item.id !in s.q.ledger.used && |s.q.items| < MAX_PENDING
    ensures Takes(s, Submit(item, None, false), t) && Calm(t)
    ensures t.q.items == s.q.items[item.id := item] && t.q.ledger.used == s.q.ledger.used + {item.id}
  {
    t := s.(q := Inserted(s.q, item));
  }

  /** The forward is the only one of its kind. */
  ghost predicate MailWaits(s: State) {
    && Calm(s) && "x" in s.q.items && s.q.items["x"] == Mail()
    && forall id :: id in s.q.items && s.q.items[id].action == Forward ==> id == "x"
  }

  lemma MailMayStart(s: State)
    requires MailWaits(s)
    ensures EnabledStep(s, Forward, "x", Run(["x"], 1.0))
  {
    assert IsPeek(s.q, Forward, "x");
    assert IsBatch(s.q, "x", ["x"], s.now);
    assert Pacing.Wait(Pacing.Looked(s.pacers[Forward], s.now), s.now) <= 0.0;
  }

  /** The forward is out. */
  ghost predicate MailIsOut(s: State, t: State) {
    && t.pcs == s.pcs[Forward := Acting(["x"])] && t.q.items == s.q.items && t.q.running == {"x"}
    && t.q.cancelled == {} && t.held == [] && t.ownSent == map[] && t.ownSendAt == map[] && t.loaded
    && Forward in t.pacers && Read in t.pacers
  }

  lemma MailStarts(s: State) returns (t: State)
    requires MailWaits(s)
    ensures Takes(s, START_MAIL, t)
    ensures t.pcs == s.pcs[Forward := Opening(["x"])] && t.q.items == s.q.items && t.q.running == {"x"}
    ensures t.q.cancelled == {} && t.held == [] && t.ownSent == map[] && t.ownSendAt == map[] && t.loaded
    ensures t.now == 0.0 && Forward in t.pacers && Read in t.pacers
  {
    MailMayStart(s);
    t := Ran(s, Forward, "x", ["x"], 1.0);
    assert ["x"][..0] == [];
    assert AllLaunched(s.q, ["x"]) == Launched(AllLaunched(s.q, []), "x");
  }

  lemma MailGoesOut(s: State) returns (t: State)
    requires "x" in s.q.items && Forward in s.pcs && s.pcs[Forward] == Opening(["x"]) && s.now == 0.0
    requires Forward in s.pacers && Read in s.pacers
    ensures Takes(s, SEND_MAIL, t) && t == ForwardBegun(s, ["x"], s.q.items["x"])
  {
    assert EnabledBegin(s, Forward, 0.0, 1.0, []);
    t := ForwardBegun(s, ["x"], s.q.items["x"]);
  }

  lemma MailInRun(states: seq<State>, events: seq<Event>) returns (states': seq<State>, events': seq<Event>)
    requires IsRun(states, events) && MailWaits(states[|events|])
    ensures IsRun(states', events') && events' == events + [START_MAIL, SEND_MAIL] && states <= states'
    ensures MailIsOut(states[|events|], states'[|events'|])
  {
    var s := states[|events|];
    var m := MailStarts(s);
    var t := MailGoesOut(m);
    TwoStepsMore(states, events, START_MAIL, m, SEND_MAIL, t);
    states', events' := states + [m, t], events + [START_MAIL, SEND_MAIL];
  }

  // ---- a cancel that a restart forgets ------------------------------------------------------------------

  lemma CancelAllDooms(s: State) returns (t: State)
    requires "x" in s.q.items && s.q.items.Keys == {"x"} == s.q.running
    ensures Takes(s, CANCEL_ALL, t) && t == s.(q := Doomed(s.q, {"x"}))
  {
    var sel := Selector({}, None, None, true);
    assert ToDoom(s.q, sel) == {"x"} && ToCancel(s.q, sel) == {};
    t := s.(q := Doomed(s.q, {"x"}));
    assert NextOutside(s, CANCEL_ALL).q == AllFinished(Doomed(s.q, {"x"}), [], Superseded);
  }

  lemma StopBreaksOff(s: State) returns (t: State)
    requires "x" in s.q.items && Forward in s.pcs && s.pcs[Forward] == Acting(["x"])
    requires Forward in s.pacers && Read in s.pacers
    ensures Takes(s, Stop(Forward), t)
    ensures t.q.items == s.q.items
  {
    t := NextWorker(s, Stop(Forward));
    assert ["x"][..0] == [];
    assert AllBrokenOff(s.q, ["x"]) == BrokenOff(AllBrokenOff(s.q, []), "x");
  }

  lemma LoadInRun() returns (states: seq<State>, events: seq<Event>)
    ensures IsRun(states, events) && events == [LOAD, SUBMIT_MAIL]
    ensures MailWaits(states[2]) && states[2].q.items == map["x" := Mail()] && states[2].q.ledger.used == {"x"}
  {
    var s1 := Loads();
    var s2 := Submits(s1, Mail());
    states, events := [Init(), s1, s2], [LOAD, SUBMIT_MAIL];
  }

  lemma CancelInRun() returns (states: seq<State>, events: seq<Event>)
    ensures IsRun(states, events)
    ensures events == [LOAD, SUBMIT_MAIL] + [START_MAIL, SEND_MAIL] + [CANCEL_ALL, Stop(Forward)]
    ensures states[5].q.items == states[6].q.items == map["x" := Mail()]
    ensures Executions.IsDoomed(states[5].q, Forward, "x")
  {
    var first, loaded := LoadInRun();
    var sent, out := MailInRun(first, loaded);
    var s5 := CancelAllDooms(sent[4]);
    var s6 := StopBreaksOff(s5);
    TwoStepsMore(sent, out, CANCEL_ALL, s5, Stop(Forward), s6);
    states, events := sent + [s5, s6], out + [CANCEL_ALL, Stop(Forward)];
  }

  /** "Cancel everything" while a request is on its way, then a shutdown: the item is cancelled while it runs, the stop
      puts it back, and after the restart it is live again and no longer cancelled. */
  lemma CancelledWorkComesBack() returns (states: seq<State>, events: seq<Event>)
    ensures IsRun(states, events)
    ensures events == [LOAD, SUBMIT_MAIL] + [START_MAIL, SEND_MAIL] + [CANCEL_ALL, Stop(Forward)]
    ensures Executions.IsDoomed(states[5].q, Forward, "x")
    ensures Enumerates(["x"], states[6].q.items.Keys)
    ensures var t := Restarted(Flushed(states[6], ["x"]), {"job"});
      "x" in t.q.items && t.q.items["x"] == Mail() && t.q.cancelled == {}
  {
    states, events := CancelInRun();
    var s, e, t := states[5], events[5], states[6];
    assert Safety.Inv(s) by { RunKeeps(states, events, 5); }
    assert Takes(s, e, t) by { RunStep(states, events, 6); }
    StoppedComesBack(s, t);
  }

  lemma StoppedComesBack(s: State, t: State)
    requires Safety.Inv(s) && Takes(s, Stop(Forward), t) && Executions.IsDoomed(s.q, Forward, "x")
    requires s.q.items == t.q.items == map["x" := Mail()]
    ensures Enumerates(["x"], t.q.items.Keys)
    ensures var r := Restarted(Flushed(t, ["x"]), {"job"});
      "x" in r.q.items && r.q.items["x"] == Mail() && r.q.cancelled == {}
  {
    CancelledComesBackWhen(s, Stop(Forward), Forward, ["x"], {"job"}, "x");
    assert Safety.Inv(t) by { NextKeeps(s, Stop(Forward)); }
    ComesBackWhen(t, ["x"], {"job"}, "x");
  }

  // ---- work that a forward of tlgr itself takes over ---------------------------------------------------------

  lemma BothInRun() returns (states: seq<State>, events: seq<Event>)
    ensures IsRun(states, events) && events == [LOAD, SUBMIT_MAIL, SUBMIT_THUMB] && MailWaits(states[3])
    ensures states[3].q.items == map["x" := Mail(), "y" := Thumb()]
  {
    var first, loaded := LoadInRun();
    var s3 := Submits(first[2], Thumb());
    OneStepMore(first, loaded, SUBMIT_THUMB, s3);
    states, events := first + [s3], loaded + [SUBMIT_THUMB];
  }

  lemma ThumbIsTaken(s: State)
    requires s.q.items == map["x" := Mail(), "y" := Thumb()] && s.q.running == {"x"}
    requires s.ownSent == map[] && s.ownSendAt == map[]
    ensures SendTakeover(s, 8, 5) == {"y"}
  {
  }

  lemma OneFinish(q: Queue, id: string)
    requires id in q.items
    ensures AllFinished(q, [id], Superseded) == Finished(q, q.items[id], Superseded)
  {
    assert [id][..0] == [];
  }

  /** The message of the forward comes back, and takes over the reaction. */
  lemma EchoDrops(s: State) returns (t: State)
    requires s.q.items == map["x" := Mail(), "y" := Thumb()] && s.q.running == {"x"}
    requires s.ownSent == map[] && s.ownSendAt == map[]
    ensures Takes(s, Outgoing(8, 5, ["y"]), t)
    ensures t == s.(q := Finished(s.q, Thumb(), Superseded))
  {
    ThumbIsTaken(s);
    OneFinish(s.q, "y");
    t := s.(q := Finished(s.q, Thumb(), Superseded));
  }

  lemma AnswerArrives(s: State) returns (t: State)
    requires "x" in s.q.items && Forward in s.pcs && s.pcs[Forward] == Acting(["x"])
    requires Forward in s.pacers && Read in s.pacers
    ensures Takes(s, ActDone(Forward, [Sent(8, [5])]), t) && t.q == s.q
  {
    t := NextWorker(s, ActDone(Forward, [Sent(8, [5])]));
  }

  /** A forward loses work that nobody took over: message 5 in chat 8 is its own, as its answer says; but the message
      comes back before the answer, and the reaction that waits in chat 8 is dropped for it. */
  lemma ForwardTakesOverItsChat() returns (states: seq<State>, events: seq<Event>)
    ensures IsRun(states, events)
    ensures events == [LOAD, SUBMIT_MAIL, SUBMIT_THUMB] + [START_MAIL, SEND_MAIL]
                      + [Outgoing(8, 5, ["y"]), ActDone(Forward, [Sent(8, [5])])]
    ensures Echoes.ForwardIsOut(states[5], 8, 5)
    ensures "y" in states[5].q.items && "y" !in states[7].q.items
    ensures "y" in states[7].q.ledger.ended && states[7].q.ledger.ended["y"] == End(Thumb(), Superseded)
  {
    var both, handed := BothInRun();
    var sent, out := MailInRun(both, handed);
    var s6 := EchoDrops(sent[5]);
    var s7 := AnswerArrives(s6);
    TwoStepsMore(sent, out, Outgoing(8, 5, ["y"]), s6, ActDone(Forward, [Sent(8, [5])]), s7);
    states, events := sent + [s6, s7], out + [Outgoing(8, 5, ["y"]), ActDone(Forward, [Sent(8, [5])])];
  }
}
