/** Conservation of messages: whatever consumers there are, nothing that arrives at the broker is lost
    or duplicated on its way to the spy. The order of arrival is only kept on a queue with a single
    consumer; what is kept with several of them is the number of occurrences of each message, over the
    spy's history, the loop, the channel, all consumers and the backlog. */
module Conservation {
  import opened Basics
  import opened Config
  import opened Pipeline
  import Order
  import Shutdown

  function Is(p: Packet): Packet -> nat {
    (x: Packet) => if x == p then 1 else 0
  }

  /** How often p occurs in ps. */
  function Count(p: Packet, ps: seq<Packet>): nat {
    Sum(Is(p), ps)
  }

  /** How often a consumer, live or not, has been given p and has not sent it. */
  function Holding(p: Packet): Consumer -> nat {
    (c: Consumer) => Count(p, Order.InFlight(c))
  }

  ghost predicate Conserved(p: Packet, n: Net, e: EngineState) {
    Count(p, n.arrived) == Count(p, Order.Sequenced(e, n)) + Sum(Holding(p), n.consumers) + Count(p, n.backlog)
  }

  lemma CountFirst(p: Packet, first: Packet, rest: seq<Packet>)
    ensures Count(p, [first] + rest) == Is(p)(first) + Count(p, rest)
  {
    SumConcat(Is(p), [first], rest);
    SumSnoc(Is(p), [], first);
    assert [] + [first] == [first];
  }

  lemma CountLast(p: Packet, init: seq<Packet>, last: Packet)
    ensures Count(p, init + [last]) == Count(p, init) + Is(p)(last)
  {
    SumSnoc(Is(p), init, last);
  }

  lemma HoldingOneMore(p: Packet, c: Consumer, x: Packet)
    ensures Holding(p)(c.(buffer := c.buffer + [x])) == Holding(p)(c) + Is(p)(x)
  {
    assert Order.InFlight(c.(buffer := c.buffer + [x])) == Order.InFlight(c) + [x];
    CountLast(p, Order.InFlight(c), x);
  }

  lemma DeliverConserves(p: Packet, n: Net, e: EngineState, closed: bool, i: nat, k: nat)
    requires Conserved(p, n, e) && ConsumerEnabled(n, closed, i, Deliver(k))
    ensures Conserved(p, ConsumerDo(n, closed, i, Deliver(k)), e)
  {
    var c, c' := n.consumers[i], ConsumerDo(n, closed, i, Deliver(k)).consumers[i];
    HoldingOneMore(p, c, n.backlog[k]);
    SumSplit(Is(p), n.backlog, k);
    SumUpdate(Holding(p), n.consumers, i, c');
  }

  lemma HoldingOneLess(p: Packet, c: Consumer)
    requires c.held.Some?
    ensures Holding(p)(c) == Is(p)(c.held.value) + Holding(p)(c.(held := None))
  {
    assert Order.InFlight(c) == [c.held.value] + Order.InFlight(c.(held := None));
    CountFirst(p, c.held.value, Order.InFlight(c.(held := None)));
  }

  lemma SendConserves(p: Packet, n: Net, e: EngineState, closed: bool, i: nat)
    requires Conserved(p, n, e) && ConsumerEnabled(n, closed, i, Send)
    ensures Conserved(p, ConsumerDo(n, closed, i, Send), e)
  {
    var n', c := ConsumerDo(n, closed, i, Send), n.consumers[i];
    var c', sent := n'.consumers[i], c.held.value;
    HoldingOneLess(p, c);
    assert Count(p, Order.Sequenced(e, n')) == Count(p, Order.Sequenced(e, n)) + Is(p)(sent) by {
      assert Order.Sequenced(e, n') == Order.Sequenced(e, n) + [sent];
      CountLast(p, Order.Sequenced(e, n), sent);
    }
    SumUpdate(Holding(p), n.consumers, i, c');
  }

  lemma StayingConserves(p: Packet, n: Net, e: EngineState, closed: bool, i: nat, action: ConsumerAction)
    requires Conserved(p, n, e) && ConsumerEnabled(n, closed, i, action) && (action.Pick? || action.Quit?)
    ensures Conserved(p, ConsumerDo(n, closed, i, action), e)
  {
    var c' := ConsumerDo(n, closed, i, action).consumers[i];
    SumUpdate(Holding(p), n.consumers, i, c');
    assert Order.InFlight(c') == Order.InFlight(n.consumers[i]);
  }

  lemma ConsumeConserves(p: Packet, n: Net, e: EngineState, closed: bool, i: nat, action: ConsumerAction)
    requires Conserved(p, n, e) && ConsumerEnabled(n, closed, i, action)
    ensures Conserved(p, ConsumerDo(n, closed, i, action), e)
  {
    match action
    case Deliver(k) => DeliverConserves(p, n, e, closed, i, k);
    case Send => SendConserves(p, n, e, closed, i);
    case Pick => StayingConserves(p, n, e, closed, i, action);
    case Quit => StayingConserves(p, n, e, closed, i, action);
  }

  lemma EnqueueConserves(p: Packet, n: Net, e: EngineState, ps: seq<Packet>)
    requires Conserved(p, n, e)
    ensures Conserved(p, Enqueue(n, ps), e)
  {
    SumConcat(Is(p), n.arrived, ps);
    SumConcat(Is(p), n.backlog, ps);
  }

  lemma NetEffectConserves(p: Packet, n: Net, e: EngineState, effect: Effect)
    requires Conserved(p, n, e)
    ensures Conserved(p, ApplyToNet(n, effect), e)
  {
    if effect.AddConsumer? {
      SumSnoc(Holding(p), n.consumers, Consumer(effect.queue, [], None, true));
    }
  }

  lemma CallConserves(p: Packet, s: State, t: nat, action: CallerAction)
    requires Shutdown.Inv(s) && Conserved(p, s.net, s.eng) && Enabled(s, Call(t, action))
    ensures var effect := CallerEffect(s.flags, s.callers[t], action);
            Conserved(p, ApplyToNet(s.net, effect), ApplyToEngine(s.eng, effect))
  {
    var effect := CallerEffect(s.flags, s.callers[t], action);
    NetEffectConserves(p, s.net, s.eng, effect);
    Order.CallKeepsSequence(s, t, action, ApplyToNet(s.net, effect));
  }

  lemma InvStep(p: Packet, w: World, s: State, step: Step)
    requires Shutdown.Inv(s) && Conserved(p, s.net, s.eng) && Enabled(s, step)
    ensures var s' := Do(w, s, step); Conserved(p, s'.net, s'.eng)
  {
    match step
    case Arrive(msg) => EnqueueConserves(p, s.net, s.eng, [Packet(msg.(direction := Received), External)]);
    case LinkLost =>
    case Invoke(_) =>
    case Consume(i, action) => ConsumeConserves(p, s.net, s.eng, s.flags.closed, i, action);
    case Process(action) => Order.ProcessKeepsSequence(w, s.net, s.eng, s.flags.cancelled, action);
    case Work(k, action) =>
      Order.WorkKeepsSequence(s.net, s.eng, s.flags, k, action);
      EnqueueConserves(p, s.net, WorkerDo(s.eng, s.flags, k, action), Enqueued(w, s.eng, s.flags, k, action));
    case Call(t, action) => CallConserves(p, s, t, action);
  }

  /** In every reachable state, retried Starts and second consumers included: every message arrived
      at the broker as often as it was recorded, is held by the loop, in the channel, held by
      consumers, and undelivered, taken together. */
  lemma NothingLostOrDuplicated(w: World, s: State, p: Packet)
    requires Reachable(w, s)
    ensures Count(p, s.net.arrived) ==
            Count(p, Order.Received(s.eng.history)) + Count(p, Order.LoopHeld(s.eng.loop)) + Count(p, s.net.msgChan)
            + Sum(Holding(p), s.net.consumers) + Count(p, s.net.backlog)
  {
    var inv := (u: State) => Conserved(p, u.net, u.eng);
    forall u, step | Reachable(w, u) && inv(u) && Enabled(u, step) ensures inv(Do(w, u, step)) {
      Shutdown.InvReachable(w, u);
      InvStep(p, w, u, step);
    }
    KeptFromStart(w, inv, s);
    var recorded, loop := Order.Received(s.eng.history), Order.LoopHeld(s.eng.loop);
    SumConcat(Is(p), recorded + loop, s.net.msgChan);
    SumConcat(Is(p), recorded, loop);
  }

  /** The channel between the consumers and the process loop never holds more than 100 messages, and
      a consumer waits with its next one exactly while it holds that many. */
  lemma ChannelIsBounded(w: World, s: State)
    requires Reachable(w, s)
    ensures |s.net.msgChan| <= 100
    ensures forall i :: 0 <= i < |s.net.consumers| && s.net.consumers[i].alive && s.net.consumers[i].held.Some? ==>
              (Enabled(s, Consume(i, Send)) <==> |s.net.msgChan| < 100)
  {
    var inv := (u: State) => |u.net.msgChan| <= 100;
    forall u, step | Reachable(w, u) && inv(u) && Enabled(u, step) ensures inv(Do(w, u, step)) {
    }
    KeptFromStart(w, inv, s);
  }

  lemma {:induction false} CountMember(p: Packet, ps: seq<Packet>)
    ensures Count(p, ps) > 0 <==> p in ps
  {
    if ps != [] {
      var init, last := ps[..|ps| - 1], ps[|ps| - 1];
      assert ps == init + [last];
      CountLast(p, init, last);
      CountMember(p, init);
    }
  }

  lemma {:induction false} ReceivedMember(history: seq<Entry>, h: nat)
    requires h < |history| && history[h].ReceivedEntry?
    ensures history[h].packet in Order.Received(history)
  {
    if h < |history| - 1 {
      ReceivedMember(history[..|history| - 1], h);
    }
  }

  /** What the spy has recorded as received did arrive at the broker, as a received message. */
  lemma RecordedHadArrived(w: World, s: State, h: nat)
    requires Reachable(w, s) && h < |s.eng.history| && s.eng.history[h].ReceivedEntry?
    ensures s.eng.history[h].packet in s.net.arrived && s.eng.history[h].packet.msg.direction.Received?
  {
    var p := s.eng.history[h].packet;
    NothingLostOrDuplicated(w, s, p);
    ReceivedMember(s.eng.history, h);
    CountMember(p, Order.Received(s.eng.history));
    CountMember(p, s.net.arrived);
    var inv := (u: State) => forall x :: x in u.net.arrived ==> x.msg.direction.Received?;
    forall u, step | Reachable(w, u) && inv(u) && Enabled(u, step) ensures inv(Do(w, u, step)) {
    }
    KeptFromStart(w, inv, s);
  }

  // What a consumer may drop

  ghost predicate DropsFit(n: Net, closed: bool) {
    forall i :: 0 <= i < |n.consumers| && !n.consumers[i].alive ==>
      (n.consumers[i].held.Some? ==> closed) && (n.consumers[i].buffer != [] ==> closed || !n.link)
  }

  lemma EffectKeepsDrops(n: Net, effect: Effect, closed: bool, closed': bool)
    requires DropsFit(n, closed) && (closed ==> closed')
    ensures DropsFit(ApplyToNet(n, effect), closed')
  {
  }

  lemma ClosedStays(f: Flags, t: nat, pc: Caller, action: CallerAction)
    requires CallerReady(f, pc, action) && f.closed
    ensures CallerFlags(f, t, pc, action).closed
  {
  }

  /** A consumer that is gone has left a message that it had taken only because the driver was closed,
      and one that it had been delivered only because of that or because the connection was lost. */
  lemma OnlyCloseDropsMessages(w: World, s: State, i: nat)
    requires Reachable(w, s) && i < |s.net.consumers| && !s.net.consumers[i].alive
    ensures s.net.consumers[i].held.Some? ==> s.flags.closed
    ensures s.net.consumers[i].buffer != [] ==> s.flags.closed || !s.net.link
  {
    var inv := (u: State) => DropsFit(u.net, u.flags.closed);
    forall u, step | Reachable(w, u) && inv(u) && Enabled(u, step) ensures inv(Do(w, u, step)) {
      if step.Call? {
        if u.flags.closed {
          ClosedStays(u.flags, step.t, u.callers[step.t], step.call);
        }
        EffectKeepsDrops(
          u.net, CallerEffect(u.flags, u.callers[step.t], step.call), u.flags.closed, Do(w, u, step).flags.closed);
      }
    }
    KeptFromStart(w, inv, s);
  }
}
