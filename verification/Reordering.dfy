/** When the recorded order of a queue is right, exactly: in a running engine on a working driver it
    is so in every later state if and only if the queue has at most one consumer. */
module Reordering {
  import opened Basics
  import opened Config
  import opened Moves
  import opened Pipeline
  import Order
  import Quiescence
  import Shutdown

  // Letting everything under way come to an end

  /** t has the flags, the connection and the consumers of s. */
  ghost predicate SameDriver(s: State, t: State) {
    && t.flags == s.flags && t.net.link == s.net.link && |t.net.consumers| == |s.net.consumers|
    && forall i :: 0 <= i < |s.net.consumers| ==> t.net.consumers[i].queue == s.net.consumers[i].queue
  }

  lemma StepKeepsDriver(w: World, s: State, step: Step)
    requires Enabled(s, step) && !IsEnvironmentStep(step) && !step.Call?
    ensures SameDriver(s, Do(w, s, step))
  {
  }

  /** Without calls and inputs the system falls quiet. */
  lemma {:induction false} FallsQuiet(w: World, b: Quiescence.Bounds, s: State) returns (t: State)
    requires Reachable(w, s) && Quiescence.Bounded(w, s, b)
    ensures LeadsTo(w, s, t) && Reachable(w, t) && Quiescence.IsQuiet(t) && SameDriver(s, t)
    decreases Quiescence.Rank(b, s)
  {
    if Quiescence.IsQuiet(s) {
      t := s;
      assert Run(w, s, [], s);
    } else {
      var step :| Enabled(s, step) && !IsEnvironmentStep(step) && !step.Call?;
      Quiescence.StepDecreases(w, b, s, step);
      Quiescence.StepKeepsBounds(w, b, s, step);
      ReachableStep(w, s, step);
      StepKeepsDriver(w, s, step);
      StepLeads(w, s, step);
      t := FallsQuiet(w, b, Do(w, s, step));
      LeadsOn(w, s, Do(w, s, step), t);
    }
  }

  /** The loop waits for messages, the channel is empty, the connection works, consumers i and j
      of queue q hold nothing, and nothing is queued for them. */
  ghost predicate IsIdle(q: string, i: nat, j: nat, s: State) {
    && s.eng.loop.Idle? && s.net.msgChan == [] && s.net.link && !s.flags.closed
    && i < j < |s.net.consumers|
    && s.net.consumers[i] == Consumer(q, [], None, true) && s.net.consumers[j] == Consumer(q, [], None, true)
    && forall k :: 0 <= k < |s.net.backlog| ==> s.net.backlog[k].msg.queue != q
  }

  lemma QuietIsIdle(w: World, s: State, q: string, i: nat, j: nat)
    requires Reachable(w, s) && Quiescence.IsQuiet(s) && s.flags.running && s.net.link && !s.flags.closed
    requires i < j < |s.net.consumers| && s.net.consumers[i].queue == s.net.consumers[j].queue == q
    ensures IsIdle(q, i, j, s)
  {
    Shutdown.InvReachable(w, s);
    Quiescence.LoopIsDone(w, s);
    Quiescence.ReasonReachable(w, s);
    Quiescence.ConsumersAreEmpty(w, s, i);
    Quiescence.ConsumersAreEmpty(w, s, j);
    forall k | 0 <= k < |s.net.backlog| ensures s.net.backlog[k].msg.queue != q {
      SelectMembers(OnQueue(q), s.net.backlog, s.net.backlog[k]);
    }
  }

  // Two messages on a queue with two consumers

  /** The broker gives a to consumer i and b to consumer j. */
  lemma Shared(w: World, s: State, q: string, i: nat, j: nat, a: Message, b: Message) returns (t: State)
    requires Reachable(w, s) && IsIdle(q, i, j, s)
    requires a.queue == b.queue == q && a.direction == b.direction == Direction.Received
    ensures LeadsTo(w, s, t) && Reachable(w, t) && t.eng == s.eng && t.net.msgChan == []
    ensures t.net.arrived == s.net.arrived + [Packet(a, External), Packet(b, External)]
    ensures j < |t.net.consumers| && t.net.consumers[j] == Consumer(q, [Packet(b, External)], None, true)
  {
    var B, first, second := s.net.backlog, Packet(a, External), Packet(b, External);
    t := Input(w, s, a);
    var u := Input(w, t, b);
    LeadsOn(w, s, t, u);
    assert u.net.arrived == s.net.arrived + [first, second] && u.net.backlog == B + [first, second];
    t := Consuming(w, u, i, Deliver(|B|));
    LeadsOn(w, s, u, t);
    assert t.net.backlog == B + [second];
    u := Consuming(w, t, j, Deliver(|B|));
    LeadsOn(w, s, t, u);
    t := u;
  }

  /** Consumer j passes its message on, and the loop records it. */
  lemma Overtaken(w: World, s: State, j: nat, p: Packet) returns (t: State)
    requires Reachable(w, s) && s.eng.loop.Idle? && s.net.msgChan == []
    requires j < |s.net.consumers| && s.net.consumers[j] == Consumer(p.msg.queue, [p], None, true)
    ensures LeadsTo(w, s, t) && Reachable(w, t) && t.net.arrived == s.net.arrived
    ensures t.eng.history == s.eng.history + [ReceivedEntry(p)]
  {
    t := Consuming(w, s, j, Pick);
    var u := Consuming(w, t, j, Send);
    LeadsOn(w, s, t, u);
    assert u.net.msgChan == [p];
    t := Looping(w, u, Receive);
    LeadsOn(w, s, u, t);
    u := Looping(w, t, LogReceived);
    LeadsOn(w, s, t, u);
    t := u;
  }

  function BodyLength(): Packet -> nat {
    (p: Packet) => |p.msg.body|
  }

  /** A message on q that has not arrived before. */
  function NewMessage(q: string, arrived: seq<Packet>): (m: Message)
    ensures m.queue == q && m.direction == Direction.Received && m.body != ""
    ensures Packet(m, External) !in arrived
  {
    var body := seq(Sum(BodyLength(), arrived) + 1, _ => 'x');
    var m := Message(q, "", map[], body, Received, "", "", "");
    assert Packet(m, External) !in arrived by {
      if k :| 0 <= k < |arrived| && arrived[k] == Packet(m, External) {
        SumSplit(BodyLength(), arrived, k);
      }
    }
    m
  }

  /** A new message recorded before another one that arrived earlier is out of order. */
  lemma SecondIsNoPrefix(recorded: seq<Packet>, arrived: seq<Packet>, a: Packet, b: Packet)
    requires recorded <= arrived && a != b && b !in arrived
    ensures !(recorded + [b] <= arrived + [a, b])
  {
    var k := |recorded|;
    assert (recorded + [b])[k] == b && (arrived + [a, b])[k] == if k < |arrived| then arrived[k] else a;
  }

  /** On a queue with two consumers the spy can record a later message first. */
  lemma SharedQueueReorders(w: World, s: State, q: string) returns (t: State)
    requires Reachable(w, s) && s.flags.running && s.net.link && !s.flags.closed
    requires !Order.AtMostOne(q, s.net.consumers)
    ensures LeadsTo(w, s, t) && Reachable(w, t) && !Order.RecordedInOrder(q, t)
  {
    var i, j :| 0 <= i < j < |s.net.consumers| && s.net.consumers[i].queue == s.net.consumers[j].queue == q;
    var bounds := Quiescence.BoundsExist(w, s);
    var u := FallsQuiet(w, bounds, s);
    QuietIsIdle(w, u, q, i, j);
    if !Order.RecordedInOrder(q, u) {
      t := u;
    } else {
      t := IdleReorders(w, u, q, i, j);
      LeadsOn(w, s, u, t);
    }
  }

  lemma IdleReorders(w: World, s: State, q: string, i: nat, j: nat) returns (t: State)
    requires Reachable(w, s) && IsIdle(q, i, j, s) && Order.RecordedInOrder(q, s)
    ensures LeadsTo(w, s, t) && Reachable(w, t) && !Order.RecordedInOrder(q, t)
  {
    var b := NewMessage(q, s.net.arrived);
    var a := b.(body := "");
    var u := Shared(w, s, q, i, j, a, b);
    t := Overtaken(w, u, j, Packet(b, External));
    LeadsOn(w, s, u, t);
    RecordingOutOfOrder(q, s, t, Packet(a, External), Packet(b, External));
  }

  lemma RecordingOutOfOrder(q: string, s: State, t: State, a: Packet, b: Packet)
    requires a.msg.queue == b.msg.queue == q && a != b && b !in s.net.arrived && Order.RecordedInOrder(q, s)
    requires t.eng.history == s.eng.history + [ReceivedEntry(b)] && t.net.arrived == s.net.arrived + [a, b]
    ensures !Order.RecordedInOrder(q, t)
  {
    var recorded, arrived := Order.Received(s.eng.history), s.net.arrived;
    assert t.eng.history[..|s.eng.history|] == s.eng.history;
    SelectSnoc(OnQueue(q), recorded, b);
    SelectSnoc(OnQueue(q), arrived, a);
    SelectSnoc(OnQueue(q), arrived + [a], b);
    assert arrived + [a, b] == arrived + [a] + [b];
    assert Of(q, arrived) + [a, b] == Of(q, arrived) + [a] + [b];
    SelectMembers(OnQueue(q), arrived, b);
    SecondIsNoPrefix(Of(q, recorded), Of(q, arrived), a, b);
  }

  // The exact condition

  predicate HasRun(f: Flags) {
    f.running || f.stopped
  }

  lemma HasRunStays(w: World, s: State, step: Step)
    requires HasRun(s.flags) && Enabled(s, step)
    ensures HasRun(Do(w, s, step).flags)
  {
  }

  /** Once an engine runs, no queue with at most one consumer gets another one. */
  lemma SingleStays(w: World, s: State, q: string, t: State)
    requires Reachable(w, s) && s.flags.running && Order.AtMostOne(q, s.net.consumers) && LeadsTo(w, s, t)
    ensures Reachable(w, t) && Order.AtMostOne(q, t.net.consumers)
  {
    var inv := (u: State) => HasRun(u.flags) && Order.AtMostOne(q, u.net.consumers);
    forall u, step | Reachable(w, u) && inv(u) && Enabled(u, step) ensures inv(Do(w, u, step)) {
      HasRunStays(w, u, step);
      Shutdown.InvReachable(w, u);
      Order.SecondConsumerExactlyOnResubscription(w, u, step, q);
    }
    var steps :| Run(w, s, steps, t);
    KeptOnRun(w, inv, s, steps, t);
  }

  /** In a running engine on a working driver, the messages of q are recorded in order in every
      later state exactly if q has at most one consumer now. */
  lemma OrderedExactlyIfSingle(w: World, s: State, q: string)
    requires Reachable(w, s) && s.flags.running && s.net.link && !s.flags.closed
    ensures (forall t :: LeadsTo(w, s, t) ==> Order.RecordedInOrder(q, t)) <==> Order.AtMostOne(q, s.net.consumers)
  {
    if Order.AtMostOne(q, s.net.consumers) {
      forall t | LeadsTo(w, s, t) ensures Order.RecordedInOrder(q, t) {
        SingleStays(w, s, q, t);
        Order.EndToEndOrder(w, t, q);
      }
    } else {
      var t := SharedQueueReorders(w, s, q);
    }
  }
}
