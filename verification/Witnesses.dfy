/** Runs that show three properties to fail where one might expect them: a second Stop returns before
    the engine is drained; a Start that is called again after a partial failure subscribes to a queue
    twice, and its messages are recorded out of order; a publication made before Close is recorded as
    published after Close has returned. Each run is built step by step, every state it passes given
    by its fields. */
module Witnesses {
  import opened Basics
  import opened Config
  import opened Pipeline
  import opened Moves
  import Order
  import Reordering

  function Note(q: string, id: string): Message {
    Message(q, "", map[], "", Received, "", "", id)
  }

  /** A first Start that has passed its checks. */
  lemma BegunStart(w: World, cfg: Config, order: seq<string>) returns (s: State)
    requires IsDesiredOrder(cfg, order)
    ensures Reachable(w, s) && s.callers == [Starting(order)] && s.eng == Init(cfg).eng && s.net == Init(cfg).net
    ensures s.flags == Init(cfg).flags.(mu := Some(0))
  {
    s := Init(cfg);
    assert Run(w, s, [], s);
    s := Enter(w, s, StartCalled);
    s := Calling(w, s, 0, Begin);
    s := Calling(w, s, 0, Declare(true, order));
  }

  /** A running engine that consumes from queue "q". */
  lemma StartedEngine(w: World, cfg: Config) returns (s: State)
    requires IsDesiredOrder(cfg, ["q"])
    ensures Reachable(w, s) && s.callers == [Returned(Started)]
    ensures s.net == Net([], [], [Consumer("q", [], None, true)], 1, true, [])
    ensures s.eng == Init(cfg).eng.(loop := Idle, wg := 1)
    ensures s.flags == Flags(None, true, false, false, {"q"}, cfg, false, None, false)
  {
    s := BegunStart(w, cfg, ["q"]);
    s := Calling(w, s, 0, Subscribe(true));
    s := Calling(w, s, 0, Commit);
  }

  /** The same engine with a message delivered to its consumer. */
  lemma EngineWithDelivery(w: World, cfg: Config) returns (s: State)
    requires IsDesiredOrder(cfg, ["q"])
    ensures Reachable(w, s) && s.callers == [Returned(Started)]
    ensures s.net.consumers == [Consumer("q", [Packet(Note("q", "1"), External)], None, true)]
    ensures s.net.consumerCount == 1 && s.net.msgChan == []
    ensures s.eng == Init(cfg).eng.(loop := Idle, wg := 1)
    ensures s.flags == Flags(None, true, false, false, {"q"}, cfg, false, None, false)
  {
    s := StartedEngine(w, cfg);
    s := Input(w, s, Note("q", "1"));
    assert s.net.backlog == [Packet(Note("q", "1"), External)];
    s := Consuming(w, s, 0, Deliver(0));
  }

  /** The same engine after its loop has taken a message from the queue. */
  lemma EngineWithMessage(w: World, cfg: Config) returns (s: State)
    requires IsDesiredOrder(cfg, ["q"])
    ensures Reachable(w, s) && s.callers == [Returned(Started)]
    ensures s.net.consumers == [Consumer("q", [], None, true)] && s.net.consumerCount == 1
    ensures s.eng == Init(cfg).eng.(loop := Taken(Packet(Note("q", "1"), External)), wg := 1)
    ensures s.flags == Flags(None, true, false, false, {"q"}, cfg, false, None, false)
  {
    s := EngineWithDelivery(w, cfg);
    var p := Packet(Note("q", "1"), External);
    assert s.net.consumers[0].buffer == [p] && [p][1..] == [];
    s := Consuming(w, s, 0, Pick);
    assert s.net.consumers[0] == Consumer("q", [], Some(p), true);
    s := Consuming(w, s, 0, Send);
    s := Looping(w, s, Receive);
  }

  /** The second of two callers of Stop returns without error while the process loop is still at
      work: the message it holds is recorded afterwards. */
  lemma SecondStopReturnsBeforeDrain(w: World) returns (s: State)
    ensures Reachable(w, s) && |s.callers| == 3 && s.callers[2] == Returned(AlreadyStopped)
    ensures Enabled(s, Process(LogReceived))
    ensures |Do(w, s, Process(LogReceived)).eng.history| > |s.eng.history|
  {
    var cfg := Config([], [], ["q"], []);
    assert IsDesiredOrder(cfg, ["q"]);
    s := EngineWithMessage(w, cfg);
    s := Enter(w, s, StopCalled);
    s := Calling(w, s, 1, FlagStop);
    s := Enter(w, s, StopCalled);
    s := Calling(w, s, 2, FlagStop);
  }

  const QR := Config([], [], ["q", "r"], [])

  /** A Start that subscribes "q" and fails on "r". */
  lemma FailedStart(w: World) returns (s: State)
    ensures Reachable(w, s) && s.callers == [Returned(StartFailed)] && s.eng.history == []
    ensures s.net == Net([], [], [Consumer("q", [], None, true)], 1, true, [])
    ensures s.flags == Flags(None, false, false, false, {"q"}, QR, false, None, false)
  {
    assert IsDesiredOrder(QR, ["q", "r"]);
    s := BegunStart(w, QR, ["q", "r"]);
    s := Calling(w, s, 0, Subscribe(true));
    s := Calling(w, s, 0, Subscribe(false));
  }

  /** A second Start passes the checks and subscribes "q" again. */
  lemma RetriedStart(w: World) returns (s: State)
    ensures Reachable(w, s) && |s.callers| == 2 && s.callers[1] == Starting(["r"]) && s.eng.history == []
    ensures s.net == Net([], [], [Consumer("q", [], None, true), Consumer("q", [], None, true)], 2, true, [])
    ensures s.flags.writer == None && !s.flags.closed
  {
    s := FailedStart(w);
    assert IsDesiredOrder(QR, ["q", "r"]);
    s := Enter(w, s, StartCalled);
    s := Calling(w, s, 1, Begin);
    s := Calling(w, s, 1, Declare(true, ["q", "r"]));
    s := Calling(w, s, 1, Subscribe(true));
  }

  lemma RetriedEngine(w: World) returns (s: State)
    ensures Reachable(w, s) && s.eng.loop.Idle? && s.eng.history == [] && !s.flags.closed
    ensures s.net.consumers == [Consumer("q", [], None, true), Consumer("q", [], None, true), Consumer("r", [], None, true)]
    ensures s.flags.running && s.net.link
  {
    s := RetriedStart(w);
    s := Calling(w, s, 1, Subscribe(true));
    s := Calling(w, s, 1, Commit);
  }

  /** The spy records the messages of the queue in another order than they arrived. */
  lemma RetriedStartReorders(w: World) returns (s: State)
    ensures Reachable(w, s) && !Order.AtMostOne("q", s.net.consumers) && !Order.RecordedInOrder("q", s)
  {
    var u := RetriedEngine(w);
    assert u.net.consumers[0].queue == u.net.consumers[1].queue == "q";
    s := Reordering.SharedQueueReorders(w, u, "q");
    if Order.AtMostOne("q", s.net.consumers) {
      Order.EndToEndOrder(w, s, "q");
    }
  }

  /** A rule that answers every message on "q". */
  const ANSWER := Rule("r", Trigger("q", "", []), MockResponse("x", "", 0, map[], Null))

  const ANSWERING := Config([], [], [], [ANSWER])

  /** The loop has recorded the message and is about to try the rule on it. */
  lemma AnswerIsTested(w: World) returns (s: State)
    ensures Reachable(w, s) && s.callers == [Returned(Started)]
    ensures s.net.consumers == [Consumer("q", [], None, true)] && s.net.consumerCount == 1
    ensures s.eng.generations == [[ANSWER]] && |s.eng.counters| == 1 && |s.eng.counters[0]| == 1 && s.eng.attempts == []
    ensures s.eng.loop == Testing(Packet(Note("q", "1"), External), 0, 0, 0)
    ensures s.flags == Flags(None, true, false, false, {"q"}, ANSWERING, false, None, false)
  {
    assert ANSWERING.rules[0].trigger.queue == "q";
    assert IsDesiredOrder(ANSWERING, ["q"]);
    s := EngineWithMessage(w, ANSWERING);
    s := Looping(w, s, LogReceived);
    s := Looping(w, s, Snapshot);
  }

  /** The rule matched the message, and its response is about to be published. */
  lemma AnswerIsReady(w: World) returns (s: State)
    ensures Reachable(w, s) && s.callers == [Returned(Started)]
    ensures s.net.consumers == [Consumer("q", [], None, true)] && s.net.consumerCount == 1
    ensures s.eng.generations == [[ANSWER]] && |s.eng.counters| == 1 && |s.eng.counters[0]| == 1
    ensures |s.eng.attempts| == 1 && s.eng.attempts[0].live && s.eng.attempts[0].phase == Ready
    ensures s.eng.attempts[0].generation == 0 && s.eng.attempts[0].rule == 0
    ensures s.flags == Flags(None, true, false, false, {"q"}, ANSWERING, false, None, false)
  {
    s := AnswerIsTested(w);
    assert MatchesRule(w.eval, ANSWER, Note("q", "1"));
    s := Looping(w, s, TestRule);
    s := Looping(w, s, Spawn(""));
  }

  /** The response is published, but not yet recorded, and a Stop times out and closes the driver. */
  lemma StopTimesOut(w: World) returns (s: State)
    ensures Reachable(w, s) && s.callers == [Returned(Started), Disconnecting(TimedOut)]
    ensures s.net.consumers == [Consumer("q", [], None, true)] && s.net.consumerCount == 1
    ensures s.eng.generations == [[ANSWER]] && |s.eng.counters| == 1 && |s.eng.counters[0]| == 1
    ensures |s.eng.attempts| == 1 && s.eng.attempts[0].live && s.eng.attempts[0].phase == Sent
    ensures s.eng.attempts[0].generation == 0 && s.eng.attempts[0].rule == 0
    ensures s.flags.closed
  {
    s := AnswerIsReady(w);
    s := Working(w, s, 0, WorkerAction.Publish(true));
    s := Enter(w, s, StopCalled);
    s := Calling(w, s, 1, FlagStop);
    s := Calling(w, s, 1, CancelContext);
    s := Calling(w, s, 1, SeeTimeout);
    s := Calling(w, s, 1, EnterClose);
  }

  /** After Stop has returned, with the driver closed, the spy still records the response. */
  lemma RecordedAfterClose(w: World) returns (s: State)
    ensures Reachable(w, s) && |s.callers| == 2 && s.callers[1] == Returned(ClosedBy(TimedOut))
    ensures s.flags.closed && s.net.consumerCount == 0
    ensures Enabled(s, Work(0, LogPublished))
    ensures var history := Do(w, s, Work(0, LogPublished)).eng.history;
            |history| == |s.eng.history| + 1 && history[|s.eng.history|].PublishedEntry?
  {
    s := StopTimesOut(w);
    s := Calling(w, s, 1, Disconnect);
    s := Consuming(w, s, 0, Quit);
    s := Calling(w, s, 1, LeaveClose);
  }
}
